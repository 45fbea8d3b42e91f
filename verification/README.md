# Verified model of the block layer and the crypto API

This project models the parts of a Linux 2.6 kernel where correctness depends on several functions
working together: the barrier protocol of the request queue, the CFQ and deadline schedulers, request
merging and completion, the asynchronous IV generator, tag allocation, Camellia's key setup, CCM, CBC
and the template-name parser. Each part has three layers.

- A description of states and steps, or of a mathematical specification (RFC 3713, RFC 3610,
  NIST SP 800-38A).
- Lemmas about that description, up to statements about every run, every input or every interleaving.
- Where the kernel works in place, classes and methods with the kernel's loops, proved against the
  description.

| files | what they cover |
|---|---|
| Camellia*.dfy | the cipher of RFC 3713 (CamelliaRfc), the kernel's data path and the simulation (CamelliaCipher), key setup and code, the key constants (CamelliaSigma) |
| Barrier*.dfy | barriers: steps (Barrier), bookkeeping in all modes (BarrierBooks), turns (BarrierTurns), ordering (BarrierOrder, BarrierSafety), what the driver sees of a sequence (BarrierPhases), tags (BarrierTags), sorting (BarrierSort), progress (BarrierProgress), other hard barriers (BarrierMixed, BarrierColors), the queue object (BarrierQueue) |
| Segment*.dfy | physical segments: greedy mapping (Segments), merges (SegmentRequests), what happens to the data (SegmentData), loops and the request object (SegmentLoops) |
| Cfq*.dfy, SortedSeq.dfy | group service tree and fairness (CfqGroups, CfqFairness, CfqTree), joining and choosing (CfqJoin), next request (CfqNext), queue merging (CfqMerge) |
| Deadline*.dfy | steps (Deadline), agreement of the indexes (DeadlineIndexes), which request goes and how long one waits (DeadlineTurns, DeadlineStarvation), that none is lost (DeadlineRequests), the scheduler object (DeadlineQueue) |
| ChainIv*.dfy | interleaved steps (ChainIv), invariants (ChainIvSafety), theorems (ChainIvTheorems), order (ChainIvOrder), what calls return (ChainIvCalls), two counterexamples (ChainIvRaces) |
| Completion*.dfy | partial completion: specification and laws (Completion), status and sectors over runs (CompletionStatus), the loop (CompletionLoop) |
| ElevatorHash.dfy, Tags.dfy | the back-merge hash; the tag map |
| CryptoBytes.dfy, Cbc*.dfy, Ccm*.dfy | byte strings and crypto_xor; CBC; CCM authentication, and that its blocks are unambiguous (CcmUnique) |
| TemplateName.dfy | template names |

Conventions. Requests, groups, queues and bios are values, or numbers that are not reused while they
are in use. Integers are unbounded. Red-black trees are sequences in key order, `jiffies` is a number
that only grows. BIOVEC_PHYS_MERGEABLE together with BIOVEC_SEG_BOUNDARY is one arbitrary predicate on
neighbouring vectors. S-boxes, block ciphers and the hash function are arbitrary functions. The
constants QUEUE_ORDSEQ_* come from a header that is not part of this model; they are consecutive bits
in the order started, drain, pre-flush, barrier, post-flush, done, as blk-barrier.c:42 requires.

Eight promises one could read into the code do not hold, and are stated with their exact condition.

- Barriers do not keep their order if a hard barrier is added that is not an fs request, as
  drivers/block/pktcdvd.c:654-659 does: it changes the colour but starts no sequence, so that a later
  request has the colour of the barrier in progress again and passes it (`WritePassesBarrier`), or a
  second barrier goes to the driver itself (`BarrierPassesBarrier`); after a requeue the queue can even
  get stuck (`SticksOrdinary`). This can happen with all templates (`PassesProxies`, `PassesDraining`,
  `PassesRequest`, `SticksBarrier`). For every set of templates that the submitters use, the order of
  requests, proxies and barriers, and progress, hold in every run exactly if there is no such barrier,
  or no barrier has anything to wait for (`OrderExactly`, `ProxyOrderExactly`, `TurnsExactly`,
  `ProgressExactly`). What does not depend on the colour holds in every run (`NothingLost`,
  `NoPhaseTwice`, `EndsWithFirstError`).
- Growing a tag map can shrink it: the clamp to the queue's size may leave the new map smaller than
  the old one, which is then copied beyond its end, and tags in flight are lost (`GrowingShrinks`).
  The copy stays in bounds exactly if the clamp does not do that (`TagMap.Resize`).
- A postponed work item of the IV generator does not always find a request: between its second look
  at the queue and its second claim of the bit the request may be gone (`EmptyHandedWorker`). It finds
  one exactly if the queue was filled when the work was queued or has been since (`WorkerFindsRequest`).
- If the random number generator fails for the first caller, a request queued meanwhile can stay queued
  with nobody to serve it (`StuckAfterRngFailure`). At rest the queue holds requests exactly if such a
  caller released the bit with a filled queue and nobody has taken the bit since (`QuiescentQueue`).
- CCM admits messages of exactly 256^L bytes for L = 2 and 3 and encodes their length as zero
  (`WrongLengths`); the length field is right exactly below 256^L (`LengthFieldExact`). CBC-MAC needs
  that no input's blocks are the beginning of another's. Among the inputs that the code accepts, a
  message breaks this exactly if it has 256^L bytes (`UnambiguousExactly`).
- The deadline scheduler prefers reads, but with writes_starved at 0 a stream of writes holds a read up
  for as long as it lasts (`ReadsWait`). From 1 on a waiting read goes out after a bounded number of
  dispatch calls (`ReadWithin`).
- Completing a request in two calls leaves a different sector than completing it in one, if the second
  call is the last (`SectorDependsOnSteps`), and a vector that was cut inside and then finished keeps
  its mark (`VectorsDependOnSteps`). `UpdatesCompose` has both conditions in terms of the request and
  the two byte counts: the vectors are the same exactly if the first call ends between two vectors, or
  the second ends in the same vector or finishes the bio.
- In a queue of mixed classes the neighbours do not suffice for `cfq_find_next_rq`
  (`MixedClassesMiss`). Its answer is the best one exactly if the winner within the best class is a
  neighbour, or the first request when the last one was done (`FindNextBestExactly`).

## Model

| member | source | states |
|---|---|---|
| CamelliaCipher.TablesAreSubstPerm | kernel/crypto/camellia.c:831-845 | the table lookups of a round, followed by the last half of P, are the S- and P-layer of section 2.4.1 of RFC 3713 |
| CamelliaWords.FlInverts | kernel/crypto/camellia.c:815-829 | FL and FLINV undo each other |
| CamelliaWords.FlInvAffine | kernel/crypto/camellia.c:351-396 | a key difference in front of FLINV becomes the carried difference behind it, which is how kw2 passes an FL layer |
| CamelliaWords.FlAffine | kernel/crypto/camellia.c:380-432 | a carried difference in front of FL becomes the plain difference behind it, which is how kw4 passes one |
| CamelliaCipher.MixUnmix | kernel/crypto/camellia.c:525-541 | the final loop of the key setup applies the inverse of the last half of P |
| CamelliaCipher.RoundSim | kernel/crypto/camellia.c:831-845 | one kernel round on halves that differ from RFC 3713's by round keys gives a half that differs by the next key |
| CamelliaCipher.GroupsSim | kernel/crypto/camellia.c:848-901 | after any number of six-round groups the two ciphers differ exactly by the exit difference and the last round key |
| CamelliaCipher.Simulation | kernel/crypto/camellia.c:848-901 | for every S-box, schedule and block the kernel's cipher is that of sections 2.2 to 2.4 of RFC 3713, if the table is the one described |
| CamelliaCipher.GroupsBack | kernel/crypto/camellia.c:903-956 | the decryption groups undo the encryption groups |
| CamelliaCipher.DecryptInverts | kernel/crypto/camellia.c:903-956 | decryption inverts encryption whatever the table holds |
| CamelliaCipher.EncryptInverts | kernel/crypto/camellia.c:848-901 | encryption inverts decryption, so every block is the ciphertext of exactly one |
| CamelliaCode.RoundSm | kernel/crypto/camellia.c:831-845 | the macro performs one round in place and leaves the other half alone |
| CamelliaCode.Rounds | kernel/crypto/camellia.c:856-875 | six rounds in place are six steps of the model |
| CamelliaCode.RoundsBack | kernel/crypto/camellia.c:911-930 | six rounds backwards in place are six backward steps |
| CamelliaCode.Fls | kernel/crypto/camellia.c:815-829 | the macro performs the FL layer in place |
| CamelliaCode.DoEncrypt | kernel/crypto/camellia.c:848-901 | the in-place loop computes the kernel cipher, halves exchanged |
| CamelliaCode.DoDecrypt | kernel/crypto/camellia.c:903-956 | the in-place loop computes the kernel's decryption, halves exchanged |
| CamelliaSetup.AbsorbKw2 | kernel/crypto/camellia.c:351-396 | the code adds kw2, carried through the FL layers, to every second subkey |
| CamelliaSetup.AbsorbKw4 | kernel/crypto/camellia.c:380-432 | the code adds kw4, carried backwards through the FL layers, to the other subkeys |
| CamelliaSetup.BothAbsorbed | kernel/crypto/camellia.c:351-432 | the two absorptions do not disturb each other |
| CamelliaSetup.AbsorbedCancels | kernel/crypto/camellia.c:434-523 | in the differences that are stored the absorbed keys cancel, only subkeys of RFC 3713 remain |
| CamelliaSetup.StoreNext | kernel/crypto/camellia.c:434-523 | storing one more group of round keys keeps them the differences that the rounds need |
| CamelliaSetup.InverseP | kernel/crypto/camellia.c:525-541 | the loop undoes the last half of P on every round key and on nothing else |
| CamelliaSetup.SetupTail | kernel/crypto/camellia.c:345-542 | for every list of subkeys the tail of the key setup produces a table with which the simulation holds |
| CamelliaRotations.RoldqIs | kernel/crypto/camellia.c:304-321 | ROLDQ and ROLDQo32 on four words are rotations of the 128-bit value, for every amount that the setup uses |
| CamelliaRotations.RoldqAdds | kernel/crypto/camellia.c:562-598 | rotating a rotated value gives the rotation by the sum of the amounts |
| CamelliaKeys.CamelliaF | kernel/crypto/camellia.c:323-340 | CAMELLIA_F is the F-function of RFC 3713 |
| CamelliaSigma.SigmasAreRoots | kernel/crypto/camellia.c:291-302 | the six key constants are the hexadecimal places 2 to 17 of the square roots of the first six primes |
| CamelliaKeys.DeriveKa128 | kernel/crypto/camellia.c:599-618 | the code derives KA as section 2.2 of RFC 3713 does |
| CamelliaKeys.Subkeys128 | kernel/crypto/camellia.c:544-648 | the subkeys of a 16-byte key are those of RFC 3713 |
| CamelliaKeys.DeriveKaKb256 | kernel/crypto/camellia.c:720-751 | the code derives KA and KB as section 2.2 of RFC 3713 does |
| CamelliaKeys.Subkeys256 | kernel/crypto/camellia.c:650-812 | the subkeys of a 32-byte key, and of a 24-byte key after extension, are those of RFC 3713 |
| CamelliaKeys.Context.SetKey | kernel/crypto/camellia.c:964-992 | exactly keys of 16, 24 and 32 bytes are accepted, and then the table belongs to the key; another key changes nothing |
| CamelliaKeys.Context.Encrypt | kernel/crypto/camellia.c:994-1016 | encryption is the cipher of RFC 3713 under the key |
| CamelliaKeys.Context.Decrypt | kernel/crypto/camellia.c:1018-1040 | decryption returns the one block whose RFC 3713 ciphertext it is given |
| Barrier.SortPos | kernel/block/elevator.c:371-408 | the sorted insert goes directly behind the last entry that stops the scan, by direction, discard, flags or sector relative to the boundary |
| Barrier.RequeuePos | kernel/block/elevator.c:614-642 | a requeued request goes in front of the first one whose phase is not smaller |
| BarrierBooks.CompleteSeqBooks | kernel/block/blk-barrier.c:74-94 | completing phases keeps the books, and the last one ends the barrier with the first error |
| BarrierBooks.BooksStartOrdered | kernel/block/blk-barrier.c:136-216 | starting a sequence, in every mode and for empty barriers, queues exactly the requests of its open phases |
| BarrierBooks.ProxyCompletes | kernel/block/blk-barrier.c:96-112 | when the request of a phase completes, its bit is still clear |
| BarrierBooks.BooksStep | kernel/block/blk-barrier.c:74-262 | every step of the queue, in every mode and whatever is added, keeps the bookkeeping: each open phase has its request on the list or at the driver exactly once, the count in flight, the first error and one sequence at a time |
| BarrierBooks.BooksRuns | kernel/block/blk-barrier.c:74-262 | so does every run |
| BarrierBooks.NoPhaseTwice | kernel/block/blk-barrier.c:74-94 | in every run, wherever phases complete - a proxy, the end of draining, the phases a new sequence skips - their bits are still clear: the BUG_ON is unreachable |
| BarrierBooks.EndsWithFirstError | kernel/block/blk-barrier.c:74-243 | for every step of every run: what it adds to the ended barriers. A sequence in progress ends only by a completion and with the first error of its phases; at a fetch or peek exactly the barriers at the head end that have nothing to do, with 0, or that the queue does not support, with -EOPNOTSUPP |
| BarrierBooks.FirstErrorIs | kernel/block/blk-core.c:133-141 | that is the earliest error that is not zero |
| BarrierPhases.ToldStep | kernel/block/blk-barrier.c:74-112 | a step that leaves the sequence in progress adds to what is recorded of its errors exactly what the driver has told in it |
| BarrierPhases.SequenceStatus | kernel/block/blk-barrier.c:74-134 | in every run of every mode, from the step that begins a sequence to the one that ends it: the barrier ends with the first error that the driver has reported for a proxy or for a part of it, and with 0 if there is none |
| BarrierPhases.SequenceCompletes | kernel/block/blk-barrier.c:136-216 | in between the driver has completed exactly the requests that the mode demands, each once: the pre-flush if the mode has one, the proxy and the post-flush if the barrier has data |
| BarrierPhases.SequenceServed | kernel/block/blk-barrier.c:96-262 | in the drain modes it was given exactly these, in this order, and each was completed, perhaps after having been given back, before the next one was given |
| BarrierTurns.NextBarrierColor | kernel/block/blk-barrier.c:45-72 | as long as the turns are kept, the one-bit colour tells the barrier in progress from the next one |
| BarrierTurns.TurnsStep | kernel/block/blk-barrier.c:74-262 | every step that adds no other hard barrier keeps the turns, in every mode: the barriers ended, in progress and listed are those added in order, and a colour is the parity of the barriers before |
| BarrierTurns.BarriersEndOnce | kernel/block/blk-barrier.c:74-112 | in every such run the barriers that have ended are a prefix of those added, each once and in order, at most the next is in progress, and none goes to the driver itself |
| BarrierOrder.FlowAdd | kernel/block/elevator.c:562-695 | adding a request that is no other hard barrier keeps the ordering invariant of the drain modes |
| BarrierOrder.FlowDispatch | kernel/block/elevator.c:371-423 | so does a dispatch from the elevator, sorted or at the tail |
| BarrierOrder.FlowStartOrdered | kernel/block/blk-barrier.c:136-216 | so does the start of a sequence |
| BarrierOrder.FlowDoOrdered | kernel/block/blk-barrier.c:218-262 | under the invariant blk_do_ordered lets through only what the driver may hold now, and its warning about a request that comes too late is not reached |
| BarrierOrder.FlowRequeue | kernel/block/elevator.c:506-521 | a requeue keeps the ordering invariant |
| BarrierOrder.FlowCompleteRequest | kernel/block/elevator.c:787-817 | so does the completion of an ordinary request, which may end the drain phase |
| BarrierOrder.FlowStep | kernel/block/blk-barrier.c:38-262 | every step that adds no other hard barrier and stays in a drain mode keeps it |
| BarrierOrder.FlowRuns | kernel/block/blk-barrier.c:38-262 | so does every run of such steps |
| BarrierSort.AddGoes | kernel/block/elevator.c:659-695 | what is to be sorted goes to the elevator exactly if it is no hard or soft barrier and has elevator data; everything else goes to the front or the back of the list |
| BarrierSort.DispatchKeepsSweep | kernel/block/elevator.c:371-408 | a sorted dispatch passes only entries of its direction and kind that a one-way sweep from the boundary reaches later, and keeps every stretch between stop entries, of one direction and kind, in the order of the sweep |
| BarrierTags.LedStep | kernel/block/blk-barrier.c:38-262 | as long as the turns are kept, every step, in every mode, keeps: no proxy is listed behind a barrier, the proxy has the barrier's length and direction and the flushes are empty |
| BarrierTags.ProxiesCarry | kernel/block/blk-barrier.c:114-203 | in every run without other hard barriers each proxy on the list or at the driver is like that |
| BarrierTags.TagGate | kernel/block/blk-barrier.c:218-262 | during a sequence ordered by tags a fetch gives the head of the list exactly if it is no barrier of the file system |
| BarrierTags.TagStarts | kernel/block/blk-barrier.c:136-216 | a barrier that is ordered by tags has its first request given out in the same fetch, whatever is in flight |
| BarrierTags.ModeTakesEffect | kernel/block/blk-barrier.c:31-32 | a mode that is set holds for the sequence in progress as well |
| BarrierTags.TagNeverStuck | kernel/block/blk-barrier.c:218-262 | in every run of every mode without other hard barriers, while a sequence ordered by tags is in progress, with nothing left to drain, and the driver holds nothing, a fetch gives it a request |
| BarrierSafety.NothingLost | kernel/block/elevator.c:371-695 | in every run of every mode, whatever is added, each request is in the elevator, on the list, with the driver, completed, or a barrier in progress, and nothing else is pending |
| BarrierSafety.ProxyAfterEarlierRequests | kernel/block/blk-barrier.c:136-262 | in every run of a drain mode without other hard barriers, when a flush or proxy goes to the driver, every fs request added before its barrier has completed |
| BarrierSafety.RequestAfterEarlierBarriers | kernel/block/blk-barrier.c:218-262 | in every run of a drain mode without other hard barriers, when an fs request goes to the driver, every barrier added before it has ended |
| BarrierProgress.AwakeStep | kernel/block/elevator.c:787-817 | every step keeps: when nothing is left to drain, the driver holds a request whose completion ends the drain phase |
| BarrierProgress.NeverStuck | kernel/block/blk-barrier.c:218-262 | in every run of a drain mode without other hard barriers, while the driver holds nothing, a fetch gives it a request or uses up the list with no sequence left in progress |
| BarrierProgress.AllCanComplete | kernel/block/blk-barrier.c:74-262 | from every state of such a run, steps of driver and elevator alone complete everything that was added |
| BarrierMixed.PassesProxies | kernel/block/elevator.c:665-671 | for every other hard barrier, every barrier that has proxies, every fs request and every drain mode there is a run in which the request goes to the driver during the earlier sequence, and blk_do_ordered warns |
| BarrierMixed.PassesDraining | kernel/block/elevator.c:665-671 | with an empty barrier without proxies the same happens while another request is drained |
| BarrierMixed.PassesRequest | kernel/block/elevator.c:614-642 | for every other hard barrier and every barrier that has proxies there is a run in which a proxy goes to the driver before an earlier fs request has completed |
| BarrierMixed.SticksOrdinary | kernel/block/elevator.c:614-642 | for every other hard barrier, every barrier, every ordinary fs request and every drain mode there is a run after which the driver holds nothing and a fetch gives nothing, while a sequence is in progress |
| BarrierMixed.SticksBarrier | kernel/block/elevator.c:614-642 | the same with hard barriers alone, if they have proxies |
| BarrierMixed.WritePassesBarrier | kernel/drivers/block/pktcdvd.c:654-659 | a run with a barrier, a packet command and a write in which the write passes the barrier |
| BarrierMixed.BarrierPassesBarrier | kernel/drivers/block/pktcdvd.c:654-659 | a run in which a second barrier goes to the driver itself, without a sequence of its own |
| BarrierColors.TurnsExactly | kernel/block/blk-barrier.c:218-262 | for every mode and every set of templates: barriers are in turn in all runs exactly if no other hard barrier is used, or no barrier waits for requests in flight |
| BarrierColors.OrderExactly | kernel/block/blk-barrier.c:218-262 | for every drain mode and every set of templates: no fs request passes an earlier barrier, in all runs, exactly if no other hard barrier is used, or all barriers end at once |
| BarrierColors.ProxyOrderExactly | kernel/block/blk-barrier.c:136-262 | and no proxy passes an earlier fs request exactly if no other hard barrier is used, or no barrier has proxies |
| BarrierColors.ProgressExactly | kernel/block/elevator.c:787-817 | the queue serves the driver in all runs exactly if no other hard barrier is used, or all barriers end at once |
| BarrierQueue.RequestQueue.DispatchSort | kernel/block/elevator.c:371-408 | the backward scan performs the dispatch step |
| BarrierQueue.RequestQueue.DispatchTail | kernel/block/elevator.c:410-423 | the dispatch to the tail performs the dispatch step |
| BarrierQueue.RequestQueue.DrainElevator | kernel/block/elevator.c:523-535 | draining is a run of dispatch steps that leaves the elevator empty |
| BarrierQueue.RequestQueue.AddRequest | kernel/block/elevator.c:659-695 | inserting a request is a run of the model that adds exactly it |
| BarrierQueue.RequestQueue.CompletePhases | kernel/block/blk-barrier.c:74-94 | performs the completion of phases and says whether the sequence is over |
| BarrierQueue.RequestQueue.StartSequence | kernel/block/blk-barrier.c:136-216 | performs start_ordered |
| BarrierQueue.RequestQueue.CheckHead | kernel/block/blk-barrier.c:218-262 | performs blk_do_ordered |
| BarrierQueue.RequestQueue.ScanList | kernel/block/blk.h:45-59 | the inner loop performs the scan of the list |
| BarrierQueue.RequestQueue.PeekRequest | kernel/block/blk-core.c:1417-1499 | peeking is a run of the model that leaves the request it returns at the head, where nothing is sorted before it any more |
| BarrierQueue.RequestQueue.FetchRequest | kernel/block/blk-core.c:1417-1546 | fetching is a run of the model, after which the driver holds the request returned and otherwise what it held before |
| BarrierQueue.RequestQueue.CompletedRequest | kernel/block/elevator.c:787-817 | performs the completion of a request and of the drain phase |
| BarrierQueue.RequestQueue.EndRequest | kernel/block/blk-barrier.c:96-112 | what the driver's completion does is the completion step |
| BarrierQueue.RequestQueue.RequeueRequest | kernel/block/elevator.c:506-521 | performs the requeue step |
| Segments.MapValid | kernel/block/blk-merge.c:128-164 | the mapper's pieces are a partition that the limits allow |
| Segments.RecountValid | kernel/block/blk-merge.c:10-68 | so are the segments that are counted |
| Segments.GreedyAhead | kernel/block/blk-merge.c:128-164 | of all allowed partitions none has fewer pieces than the mapper's, and one with equally many has a last piece that contains the mapper's |
| Segments.MapIsOptimal | kernel/block/blk-merge.c:128-164 | no allowed partition is smaller than what the mapper emits |
| SegmentRequests.SoundBoundsMap | kernel/block/blk-merge.c:112-164 | if the invariant holds, the counter bounds the scatter-gather list |
| SegmentRequests.BoundedJoin | kernel/block/blk-merge.c:86-110 | if blk_phys_contig_segment holds of the cached sizes, the end pieces of any covering partitions can be joined, and the new end sizes are covered |
| SegmentRequests.CountedSound | kernel/block/blk-merge.c:75-84 | recounting a bio makes its count and sizes sound |
| SegmentRequests.BackMergeSound | kernel/block/blk-merge.c:218-240 | a back merge keeps the invariant, also when it is refused |
| SegmentRequests.FrontMergeSound | kernel/block/blk-merge.c:242-265 | so does a front merge |
| SegmentRequests.MergeReqsSound | kernel/block/blk-merge.c:267-302 | so does a request merge with its minus one, for both requests when it is given up after the sizes were written |
| SegmentRequests.RecalcSound | kernel/block/blk-merge.c:70-73 | recounting what a partial completion leaves establishes it |
| SegmentRequests.ReachedSound | kernel/block/blk-merge.c:10-302 | it holds of every request, whatever its history of bio and request merges and completions |
| SegmentRequests.MapFitsCount | kernel/block/blk-merge.c:112-302 | at all times nr_phys_segments is at least the number of entries that the mapper emits |
| SegmentData.BackMergeData | kernel/block/blk-merge.c:218-240 | a back merge succeeds exactly if sectors and segments stay within the limits, then puts the bio's data behind the request's and adds up sectors and segments; refused, it changes none of them |
| SegmentData.FrontMergeData | kernel/block/blk-merge.c:242-265 | a front merge succeeds exactly under the same limits and puts the data in front |
| SegmentData.MergeReqsData | kernel/block/blk-merge.c:267-302 | two requests are joined exactly if their sectors, and their segments less one if the neighbours join, are within the limits; the data of the second then follows that of the first |
| SegmentData.HighAlone | kernel/block/blk-merge.c:35-58 | in the recount a page above the bounce limit is a segment of its own |
| SegmentData.RecountIsMap | kernel/block/blk-merge.c:10-164 | without such pages the recount finds exactly the segments that the mapper emits |
| SegmentData.DataInPlace | kernel/block/blk-core.c:946-1001 | after every history of merges and completions each vector of the request lies at its own place on the disk, counted from the request's sector |
| SegmentLoops.CountSegments | kernel/block/blk-merge.c:10-68 | the loop with its running size counts the segments and raises the cached sizes of the first and the last bio to those of the end segments |
| SegmentLoops.MapSg | kernel/block/blk-merge.c:112-164 | the loop writes start and length of every piece |
| SegmentLoops.RecountBio | kernel/block/blk-merge.c:75-84 | recounts a bio unless its count is valid |
| SegmentLoops.Request.constructor | kernel/block/blk-merge.c:75-84 | a request from one sound bio is sound |
| SegmentLoops.Request.NewHwSegment | kernel/block/blk-merge.c:197-216 | adds segments exactly if the limit allows it, and else forbids further merging |
| SegmentLoops.Request.MergeBack | kernel/block/blk-merge.c:218-240 | performs the back merge in place and stays sound |
| SegmentLoops.Request.MergeFront | kernel/block/blk-merge.c:242-265 | performs the front merge in place and stays sound |
| SegmentLoops.Request.MergeNext | kernel/block/blk-merge.c:267-302 | performs the request merge on both requests in place, and what is left of each is sound |
| SegmentLoops.Request.RecalcSegments | kernel/block/blk-merge.c:70-73 | recounts in place |
| SegmentLoops.Request.Map | kernel/block/blk-merge.c:112-164 | a table of nr_phys_segments entries is never too short |
| Completion.LeftOver | kernel/block/blk-core.c:1580-1640 | the remaining sizes drop by what was completed, and something is left exactly if that was less than there was |
| Completion.UpdateGood | kernel/block/blk-core.c:1548-1678 | the length stays the sum of the remaining sizes, every remaining bio stays well-formed, and the result says whether bytes remain |
| Completion.TakesFirstBytes | kernel/block/blk-core.c:1580-1655 | completion takes exactly the first bytes off the chain, byte by byte |
| Completion.TrimTrim | kernel/block/blk-core.c:1644-1649 | cutting a bio twice is cutting it once; the vector tables agree exactly if the first cut is between two vectors or in the same vector as the second |
| Completion.UpdatesCompose | kernel/block/blk-core.c:1548-1678 | completing n sector-aligned bytes and then m gives the same remaining bytes, ended bios with the same status, length and result as n + m at once; the bios with all their vectors agree exactly if the cut at n is clean; the sector agrees exactly if n + m does not finish the request, or n already does, or n is zero |
| Completion.SectorDependsOnSteps | kernel/block/blk-core.c:1627-1660 | a request of two sectors where the sector differs |
| Completion.VectorsDependOnSteps | kernel/block/blk-core.c:1644-1649 | a request of two vectors where the vectors differ |
| Completion.EndOnceInOrder | kernel/block/blk-core.c:1580-1590 | the bios that end are a prefix of the chain, each once and in order with its status, the others remain |
| Completion.RunsEndInOrder | kernel/block/blk-core.c:1548-1678 | over every run of completions the bios that have ended, followed by those that remain, are the chain in its order, each once |
| CompletionStatus.RunStatus | kernel/block/blk-core.c:105-142 | over every run of completions a bio is ended exactly if its bytes are completed, in its place in the chain, with the error of the call that completed its last byte, or else with -EIO if it was not up to date or some byte of it was completed with an error, or else with 0 |
| CompletionStatus.AdvanceEnd | kernel/block/blk-core.c:121-127 | a bio that is cut still ends at its sector exactly if the cut is at a sector |
| CompletionStatus.RunsKeepEnds | kernel/block/blk-core.c:1548-1678 | over every run of completions of whole sectors, what is left of each bio ends where the bio ended |
| CompletionLoop.Request.BioEndio | kernel/block/blk-core.c:105-142 | advances a bio by at most its size and ends it exactly when nothing is left, with the status that its flag demands |
| CompletionLoop.Request.Pass | kernel/block/blk-core.c:1577-1627 | the loop over bios and vectors; the branch for an index beyond the vectors is unreachable |
| CompletionLoop.Request.UpdateRequest | kernel/block/blk-core.c:1548-1678 | the code computes the specification; the branch for a botched request is unreachable |
| CfqGroups.LinkValid | kernel/block/cfq-iosched.c:736-762 | linking a group behind equal keys keeps the tree sorted and the cached leftmost right |
| CfqGroups.AddValid | kernel/block/cfq-iosched.c:764-790 | a joining group keeps the invariant: sorted, min_vdisktime below every key, leftmost unset or right, served group minimal |
| CfqGroups.DelValid | kernel/block/cfq-iosched.c:792-814 | so does a leaving queue or group |
| CfqGroups.ChooseValid | kernel/block/cfq-iosched.c:1993-2004 | so does the choice of the next group, with the update of min_vdisktime |
| CfqGroups.ExpireValid | kernel/block/cfq-iosched.c:843-875 | so does charging the served group |
| CfqGroups.Step | kernel/block/cfq-iosched.c:730-875 | every step keeps the invariant and min_vdisktime never decreases |
| CfqFairness.RunKeepsInvariant | kernel/block/cfq-iosched.c:456-499 | every run keeps the invariant and min_vdisktime never decreases |
| CfqFairness.KeysAreService | kernel/block/cfq-iosched.c:843-860 | the key of a group that stays on the tree grows by exactly its scaled service |
| CfqFairness.GapBounded | kernel/block/cfq-iosched.c:730-875 | over every run the gap of two keys never exceeds the larger of its initial value and the largest single scaled charge |
| CfqFairness.ServiceFair | kernel/block/cfq-iosched.c:730-875 | over every run the normalised service of two groups differs by at most a constant |
| CfqFairness.TimeFair | kernel/block/cfq-iosched.c:456-463 | the real time used, divided by the weights, differs by that constant and at most one rounding unit for each turn |
| CfqJoin.JoinsLast | kernel/block/cfq-iosched.c:764-790 | a group that joins comes last, by the idle delay behind the last group and so behind all; alone it starts at min_vdisktime |
| CfqJoin.JoinerNotAhead | kernel/block/cfq-iosched.c:764-790 | over every run the normalised service of a group that joined exceeds that of a group that was there by no more than the largest charge less the delay |
| CfqJoin.OnTreeWhileQueued | kernel/block/cfq-iosched.c:764-814 | over every run a group is on the tree exactly as long as it has queues |
| CfqJoin.NextChooses | kernel/block/cfq-iosched.c:1993-2004 | the choice brings min_vdisktime up to the smallest key, finds the leftmost again, and serves a group with that key exactly if there is a queue to activate |
| CfqJoin.LeftKept | kernel/block/cfq-iosched.c:671-694 | the cached leftmost is forgotten only when that group leaves its place |
| CfqTree.ServiceTree.LinkGroup | kernel/block/cfq-iosched.c:736-762 | the walk links the group at its place and sets the leftmost exactly if it never turned right |
| CfqTree.ServiceTree.EraseGroup | kernel/block/cfq-iosched.c:688-694 | removes a group and forgets the leftmost if it was this one |
| CfqTree.ServiceTree.AddQueue | kernel/block/cfq-iosched.c:764-790 | performs the join step in place |
| CfqTree.ServiceTree.DelQueue | kernel/block/cfq-iosched.c:792-814 | performs the leave step in place |
| CfqTree.ServiceTree.FirstGroup | kernel/block/cfq-iosched.c:671-680 | the cached or recomputed leftmost is the first group |
| CfqTree.ServiceTree.UpdateMin | kernel/block/cfq-iosched.c:483-499 | without an active group min_vdisktime stays; else it grows to the smaller of the active and the leftmost key, if that is larger |
| CfqTree.ServiceTree.NextGroup | kernel/block/cfq-iosched.c:1993-2004 | performs the choice in place |
| CfqTree.ServiceTree.GroupServed | kernel/block/cfq-iosched.c:843-860 | performs the charge in place |
| CfqNext.BetterIsTotalOrder | kernel/block/cfq-iosched.c:568-654 | the preference behind cfq_choose_req is a strict total order |
| CfqNext.ChooseIsBest | kernel/block/cfq-iosched.c:568-654 | cfq_choose_req returns the better of two requests |
| CfqNext.SeeksBack | kernel/block/cfq-iosched.c:593-625 | of two requests of one class on either side of the head the one behind is chosen exactly if it is at most cfq_back_max KiB away and its distance times the penalty is less than the way ahead |
| CfqNext.WinnerIsBest | kernel/block/cfq-iosched.c:568-654 | the nearest request of the best class ahead, or its first one, against the nearest behind: their winner is the best of all other requests |
| CfqNext.FindNextBestExactly | kernel/block/cfq-iosched.c:696-718 | for every queue and penalty the two neighbours, with wrap-around, give the best of all other requests exactly if that winner is one of them, and nothing exactly if there is no other |
| CfqNext.FindNextIsBest | kernel/block/cfq-iosched.c:696-718 | for a queue of one class they always do |
| CfqNext.MixedClassesMiss | kernel/block/cfq-iosched.c:696-718 | with mixed classes a better request can be missed |
| CfqMerge.LinkEnds | kernel/block/cfq-iosched.c:1875-1885 | a link between the ends of two chains keeps the links a forest |
| CfqMerge.ChainSimple | kernel/block/cfq-iosched.c:2400-2419 | a chain never comes back to its start or to itself |
| CfqMerge.Queues.SetupMerge | kernel/block/cfq-iosched.c:1846-1886 | the walk ends, the links stay a forest, and exactly when no process is gone and the chain ends elsewhere the smaller side is linked to the larger, which takes its references |
| CfqMerge.Queues.PutCooperator | kernel/block/cfq-iosched.c:2400-2419 | the walk ends, lowers the references of exactly the queues of the chain by one each, and the warning about a loop is unreachable |
| DeadlineIndexes.MoveGood | kernel/block/deadline-iosched.c:184-200 | moving a request out keeps the indexes in agreement |
| DeadlineIndexes.AddGood | kernel/block/deadline-iosched.c:66-100 | so does an insertion, also when it moves an alias out of the way |
| DeadlineIndexes.FrontGood | kernel/block/deadline-iosched.c:140-152 | so does a front merge that moves a request in the tree |
| DeadlineIndexes.MergeGood | kernel/block/deadline-iosched.c:154-173 | so does a request merge; the request that remains has the earlier of the two expiry times and the FIFO stays sorted |
| DeadlineIndexes.DispatchGood | kernel/block/deadline-iosched.c:215-297 | so does a dispatch, which moves a request exactly if there is one |
| DeadlineIndexes.Step | kernel/block/deadline-iosched.c:66-297 | after every step tree and FIFO of each direction hold the same requests at distinct sectors, next_rq is a member or unset, at most one direction has one, nr_sorted is the total, and the FIFO is sorted |
| DeadlineIndexes.HeadDecides | kernel/block/deadline-iosched.c:202-213 | the head of the FIFO has expired exactly if anything in it has |
| DeadlineIndexes.LatterIsNext | kernel/block/deadline-iosched.c:55-64 | the successor in the tree is the request with the next higher sector |
| DeadlineIndexes.ExpiredFirst | kernel/block/deadline-iosched.c:268-285 | if anything has expired in the direction of a new batch, it starts with a request that expires no later than the others |
| DeadlineStarvation.RunsGood | kernel/block/deadline-iosched.c:66-297 | the agreement holds at the end of every run |
| DeadlineStarvation.StepCloser | kernel/block/deadline-iosched.c:215-297 | while a write waits, every dispatch call sends one out or lowers a rank, and no other step raises it |
| DeadlineStarvation.WriteWithinRank | kernel/block/deadline-iosched.c:215-297 | as many dispatch calls as the rank send a write out |
| DeadlineStarvation.WriteWithin | kernel/block/deadline-iosched.c:215-297 | a waiting write leads to a dispatched write within (writes_starved + 1) * max(1, fifo_batch) + 1 dispatch calls, whatever is added, merged or moved in between |
| DeadlineTurns.DispatchChooses | kernel/block/deadline-iosched.c:215-297 | what every call sends: nothing exactly if nothing is queued; the request the running batch stands at; or the first of a new batch, which with requests in both directions is a write exactly if writes were passed over writes_starved times, and is the earliest to expire unless the batch goes on in its direction and nothing there has expired; and with what counters and at what request it leaves the batch |
| DeadlineTurns.MergeStands | kernel/block/deadline-iosched.c:76-108 | a batch that stood at a request that is merged away stands at the nearest one above it |
| DeadlineTurns.BatchSweeps | kernel/block/deadline-iosched.c:184-239 | while a batch has room and a request of its direction waits at a higher sector, the next call sends the nearest one |
| DeadlineTurns.StepReadCloser | kernel/block/deadline-iosched.c:215-297 | while a read waits and writes_starved is not 0, every dispatch call sends a read or lowers a rank, and no other step raises it |
| DeadlineTurns.ReadWithin | kernel/block/deadline-iosched.c:215-297 | a waiting read leads to a dispatched read within 2 * max(1, fifo_batch) + 1 dispatch calls, if writes_starved is not 0, whatever is added, merged or moved in between |
| DeadlineTurns.ReadsWait | kernel/block/deadline-iosched.c:243-248 | with writes_starved at 0 there is, for every n, a run with n dispatch calls in which a waiting read does not go out |
| DeadlineRequests.AddRbLinked | kernel/block/deadline-iosched.c:66-74 | linking a request moves another one out exactly if that has the same sector, and loses none |
| DeadlineRequests.StepAccounts | kernel/block/deadline-iosched.c:66-297 | every step accounts for every request: it still waits or went out, with the sector and the expiry it had, but for the request that the step is about |
| DeadlineRequests.NoneLost | kernel/block/deadline-iosched.c:66-297 | over every run the requests that came in are those that wait, those that went out and those merged into others, each once |
| DeadlineQueue.DeadlineData.constructor | kernel/block/deadline-iosched.c:317-335 | a new scheduler is empty and its indexes agree |
| DeadlineQueue.DeadlineData.MoveRequest | kernel/block/deadline-iosched.c:184-200 | performs the move in place |
| DeadlineQueue.DeadlineData.RbAdd | kernel/block/elevator.c:319-341 | links a request at its place or reports the one at its sector |
| DeadlineQueue.DeadlineData.AddRqRb | kernel/block/deadline-iosched.c:66-74 | the loop ends after at most one alias |
| DeadlineQueue.DeadlineData.AddRequest | kernel/block/deadline-iosched.c:87-100 | performs the insertion step in place |
| DeadlineQueue.DeadlineData.MergedRequest | kernel/block/deadline-iosched.c:140-152 | performs the front-merge step in place |
| DeadlineQueue.DeadlineData.MergedRequests | kernel/block/deadline-iosched.c:154-173 | performs the request-merge step in place |
| DeadlineQueue.DeadlineData.DispatchRequests | kernel/block/deadline-iosched.c:215-297 | performs the dispatch step in place, and moves a request exactly if there is one |
| DeadlineQueue.DeadlineData.Drain | kernel/block/elevator.c:523-535 | forced draining ends with nr_sorted zero and empty lists; the complaint about broken dispatching is unreachable |
| ChainIvSafety.OwnedStep | kernel/crypto/chainiv.c:110-249 | every step keeps: the bit is set exactly when one thread or the pending work item owns the IV |
| ChainIvSafety.HopeStep | kernel/crypto/chainiv.c:110-249 | every step keeps: a filled queue has an owner or a thread that will still look at it, or it is stranded, and then it is filled and nobody owns the bit |
| ChainIvSafety.StockStep | kernel/crypto/chainiv.c:110-146 | every step keeps: until the worker looks, the queue is filled exactly if it was when the work was queued or has been since |
| ChainIvSafety.StatusStep | kernel/crypto/chainiv.c:110-166 | every step keeps: the shared error field holds the owner's own status when it is read |
| ChainIvSafety.SeededStep | kernel/crypto/chainiv.c:148-166 | every step keeps: the encryptions so far are those of the locked version and the owner has the newest IV |
| ChainIvSafety.UnseededStep | kernel/crypto/chainiv.c:195-220 | before the IV is seeded nobody gets past the first caller |
| ChainIvTheorems.OneOwner | kernel/crypto/chainiv.c:110-249 | in every reachable state at most one thread owns the IV, none while work is pending, and the bit says whether somebody does |
| ChainIvTheorems.QueueWorkSucceeds | kernel/crypto/chainiv.c:110-129 | queue_work never finds its work pending: the BUG_ON is unreachable |
| ChainIvTheorems.QuiescentQueue | kernel/crypto/chainiv.c:110-146 | when everything has come to rest the bit is clear, and the queue holds requests exactly if it is stranded |
| ChainIvTheorems.EachRequestOnce | kernel/crypto/chainiv.c:131-249 | no request is encrypted twice or also refused, and at rest each was one or the other unless the queue is stranded |
| ChainIvTheorems.IvsFormOneChain | kernel/crypto/chainiv.c:35-68 | with a synchronous cipher the requests were given the IVs that the locked version gives them in that order |
| ChainIvTheorems.ReturnsOwnStatus | kernel/crypto/chainiv.c:131-166 | a call returns the status of its own queueing or encryption |
| ChainIvTheorems.WorkerFindsRequest | kernel/crypto/chainiv.c:222-249 | the worker finds a request exactly if the queue was filled when the work was queued, or has been since |
| ChainIvOrder.FirstComeFirstServed | kernel/crypto/chainiv.c:148-249 | in every run requests are encrypted in the order in which they were accepted: the line of those encrypted, in hand and queued only grows at its end, and nobody overtakes the queue |
| ChainIvCalls.CallReturns | kernel/crypto/chainiv.c:131-220 | in every run what a call returns says what became of its request: refused with EBUSY, queued with EINPROGRESS, or with EBUSY if it may be backlogged, encrypted with that status, or given up with the error of the random number generator |
| ChainIvCalls.InProgressIsQueued | kernel/crypto/chainiv.c:131-146 | a call that is told EINPROGRESS has its request queued or served and not dropped, and one whose request was dropped is told EBUSY, unless the status is what the random number generator returned |
| ChainIvCalls.PostponedReturns | kernel/crypto/algapi.c:792-812 | a call that enqueues returns EBUSY exactly if the queue was full, and its request is dropped exactly if, besides, it may not be backlogged; in all other cases it stays in the line |
| ChainIvRaces.EmptyHandedWorker | kernel/crypto/chainiv.c:115-124 | an interleaving in which the worker finds the queue empty |
| ChainIvRaces.StuckAfterRngFailure | kernel/crypto/chainiv.c:195-220 | an interleaving in which a failing RNG leaves a queued request behind |
| ElevatorHash.Hash.Insert | kernel/block/elevator.c:596-612 | a sorted insert hashes a mergeable request by its end |
| ElevatorHash.Hash.Dispatch | kernel/block/elevator.c:371-423 | a dispatched request leaves the hash |
| ElevatorHash.RepositionGood | kernel/block/elevator.c:291-295 | whatever bucket a request was in, repositioning puts it right and leaves the others as they were |
| ElevatorHash.AbsorbedSpans | kernel/block/blk-merge.c:341-412 | a merge is one of two mergeable requests; the result starts where the first did, ends where the second did, has the sectors of both, and no other request moves |
| ElevatorHash.Hash.BackMerge | kernel/block/blk-core.c:946-967 | the whole back-merge arm goes from a right hash to a right hash: the request grows, and while its bucket is still that of the old end it is merged with its neighbour exactly if they are adjacent and may merge, or else repositioned |
| ElevatorHash.Hash.FrontMerge | kernel/block/blk-core.c:969-1001 | the whole front-merge arm does too; a bio that ends where the request starts changes start and length but not the end, so the bucket stays right without repositioning |
| ElevatorHash.Hash.AttemptMerge | kernel/block/blk-merge.c:341-412 | merges exactly adjacent mergeable requests, from a hash that is right for all others, and leaves it right for all |
| ElevatorHash.Hash.MergeRequests | kernel/block/elevator.c:482-495 | from a hash that is right except perhaps for the growing request, to one where that is found at its end and the other is gone |
| ElevatorHash.DelGood | kernel/block/elevator.c:297-317 | lazy deletion of a request that may not be merged keeps the hash right |
| ElevatorHash.Hash.Find | kernel/block/elevator.c:297-317 | the lookup returns a mergeable request that ends at the sector exactly if there is one in the elevator, and drops only requests that may not be merged |
| Tags.TagsUnique | kernel/block/blk-tag.c:240-287 | two requests never have the same tag |
| Tags.TagMap.constructor | kernel/block/blk-tag.c:63-94 | a new map is empty, and as deep as asked or as the clamp of its queue, if it has one, allows |
| Tags.TagMap.FirstZero | kernel/block/blk-tag.c:270-273 | the first clear bit |
| Tags.TagMap.StartTag | kernel/block/blk-tag.c:240-287 | takes the lowest free tag below the limit of the request's kind, refuses exactly if there is none or too many asynchronous requests are in flight, and keeps bitmap and index in agreement |
| Tags.TagMap.EndTag | kernel/block/blk-tag.c:203-238 | gives exactly this tag back; both complaints are unreachable |
| Tags.TagMap.Resize | kernel/block/blk-tag.c:155-200 | shrinking and growing keep every tag in flight and the agreement, as long as the copy of the old map stays in bounds, which is exactly if the clamp leaves the new map as large as the old one |
| Tags.GrowingShrinks | kernel/block/blk-tag.c:155-200 | a map of 128 tags, tag 100 in use, and a queue of 32 requests: asked for 256 tags the new map has 64, and the tag is lost |
| Tags.AsyncAtMost | kernel/block/blk-tag.c:261-267 | at a depth above one asynchronous requests hold at most max(1, depth - 2) tags |
| Tags.SyncReserve | kernel/block/blk-tag.c:261-267 | two tags, of two one, are kept from asynchronous requests |
| CryptoBytes.XorWords | kernel/crypto/algapi.c:889-894 | in either byte order the exclusive-or of two 32-bit words in memory is that of their bytes |
| CryptoBytes.CryptoXor | kernel/crypto/algapi.c:882-897 | words and then bytes give the exclusive-or of the buffers and change nothing else |
| Cbc.EncryptBlock | kernel/crypto/cbc.c:44-51 | block by block the specification is CBC encryption of section 6.2 of NIST SP 800-38A |
| Cbc.DecryptBlock | kernel/crypto/cbc.c:116-123 | block by block the specification is CBC decryption of section 6.2 of NIST SP 800-38A |
| Cbc.DecryptInverts | kernel/crypto/cbc.c:159-181 | decryption inverts encryption for every message of whole blocks |
| Cbc.EncryptCut | kernel/crypto/cbc.c:80-102 | a message may be cut at any block and goes on with the carried IV |
| Cbc.DecryptCut | kernel/crypto/cbc.c:159-181 | so may a ciphertext |
| CbcLoops.EncryptSegment | kernel/crypto/cbc.c:32-54 | the loop between buffers encrypts, carries the IV and returns the odd bytes |
| CbcLoops.EncryptInplace | kernel/crypto/cbc.c:56-78 | so does the loop in place |
| CbcLoops.DecryptSegment | kernel/crypto/cbc.c:104-128 | the loop between buffers decrypts and carries the IV |
| CbcLoops.MaskIsRem | kernel/crypto/cbc.c:141-143 | for a power of two the mask gives the odd bytes |
| CbcLoops.Backward | kernel/crypto/cbc.c:145-151 | the backward loop leaves every block but the first decrypted |
| CbcLoops.DecryptInplace | kernel/crypto/cbc.c:130-157 | the backward loop in place decrypts and carries the IV |
| CbcLoops.EncryptRun | kernel/crypto/cbc.c:93-99 | one turn of the walk, in place or between buffers, encrypts the whole blocks that it maps |
| CbcLoops.EncryptWalk | kernel/crypto/cbc.c:80-102 | whatever runs the walk makes, each in place or between buffers and with odd bytes mapped again, the destination gets the encryption of the whole message and nothing else changes; it fails exactly if bytes are left over |
| CbcLoops.DecryptRun | kernel/crypto/cbc.c:172-178 | one turn of the decrypting walk |
| CbcLoops.DecryptWalk | kernel/crypto/cbc.c:159-181 | the same for decryption |
| Ccm.Absorb | kernel/crypto/ccm.c:154-191 | what was absorbed and the tail that waits make up the whole string, however it was cut |
| Ccm.DigitsExact | kernel/crypto/ccm.c:48-64 | a number is what its big-endian digits say exactly if there are enough of them |
| CcmAuth.SetMsgLen | kernel/crypto/ccm.c:48-64 | writes the length in the given number of bytes, or refuses, exactly when the code does |
| CcmAuth.Authenticator.ComputeMac | kernel/crypto/ccm.c:154-191 | absorbs any piece, and fewer than 16 bytes wait afterwards |
| CcmAuth.Authenticator.GetDataToCompute | kernel/crypto/ccm.c:193-233 | absorbs the first bytes of any list of chunks and the zero padding |
| CcmAuth.Authenticator.FormatInput | kernel/crypto/ccm.c:113-133 | builds B_0 of section 2.2 of RFC 3610 |
| CcmAuth.Authenticator.FormatAdata | kernel/crypto/ccm.c:135-152 | encodes the length of the associated data as section 2.2 of RFC 3610 does |
| CcmAuth.Authenticator.Auth | kernel/crypto/ccm.c:235-268 | for every cut of associated data and message into chunks the result is the CBC-MAC of section 2.2 of RFC 3610 |
| CcmAuth.LengthFieldExact | kernel/crypto/ccm.c:48-64 | the length field says the length exactly if the message is shorter than 256^L |
| CcmAuth.WrongLengths | kernel/crypto/ccm.c:48-64 | the lengths that are let through and encoded wrongly are exactly 256^2 and 256^3 in fields of that size |
| CcmUnique.FirstTells | kernel/crypto/ccm.c:113-133 | if the length field says the length, B_0 tells the nonce, the tag size, whether there is associated data, and the length |
| CcmUnique.PrefixFree | kernel/crypto/ccm.c:113-268 | then the blocks of an input are the beginning of another's only if nonce, tag size, associated data and message are the same |
| CcmUnique.UnambiguousExactly | kernel/crypto/ccm.c:48-64 | of the inputs that the code accepts, those whose blocks go on where another's end are exactly those with a message of 256^L bytes |
| TemplateName.ParsePrint | kernel/crypto/algboss.c:104-172 | parsing a printed name with 1 to CRYPTO_MAX_ATTRS - 1 arguments gives back template, arguments and kinds, whatever follows it |
| TemplateName.ParsesExactly | kernel/crypto/algboss.c:104-172 | a text is parsed exactly if it begins with such a printed name |
| TemplateName.TooManyRefused | kernel/crypto/algboss.c:157-160 | with more arguments the name is refused |
| TemplateName.NameIsArg | kernel/crypto/algboss.c:123-137 | a name nested to any depth is an argument that the round trip covers |
| TemplateName.SkipWord | kernel/crypto/algboss.c:120-121 | the scan over a word, and whether it is a number |
| TemplateName.SkipNested | kernel/crypto/algboss.c:123-137 | the search for the closing parenthesis with its counter |
| TemplateName.ParseArg | kernel/crypto/algboss.c:117-156 | one argument and its attribute |
| TemplateName.ParseText | kernel/crypto/algboss.c:104-172 | the loops compute the parser function |

## Left out

- The tables of Camellia's S-boxes: they are arbitrary functions, so their constants are not checked.
- Barriers: fs requests are never inserted in front, which blk-barrier.c:170-175 relies on, and a forced dispatch empties the elevator, which is a run of dispatch steps before the insertion; elv_abort_queue, merging inside the queue, and requests that prep_rq_fn defers or kills.
- BarrierOrder.FlowAdd: excludes hard barriers that are not fs requests, because with them the order fails; BarrierColors has the exact condition.
- BarrierQueue.RequestQueue.DispatchTail: the updates of end_sector and boundary_rq are not modelled; the boundary of a sorted insert is any number instead.
- BarrierQueue.RequestQueue.AddRequest: the same updates, when a barrier is added, are not modelled.
- BarrierQueue.RequestQueue.PeekRequest: the same updates are not modelled, and a peeked request goes to the driver only through a later fetch.
- BarrierSafety.ProxyAfterEarlierRequests: for the drain modes only, because with tags the device enforces the order.
- BarrierSafety.RequestAfterEarlierBarriers: for the drain modes only, because with tags the device enforces the order.
- BarrierTags.ProxiesCarry: the FUA flag of the proxy is not modelled; a mode with it only has no post-flush.
- Segments: requests with driver data of their own, which are not merged, padding, drain buffers, integrity segments and discard bios; the cache of the last merged request.
- Partial completion: quiet and mixed-merge flags, integrity, bidirectional requests and statistics; the recount that follows is SegmentLoops.Request.RecalcSegments.
- CFQ: cooperator hand-over within the fairness theorem, weight changes of a group on the tree, idling, slice lengths and the 64-bit wrap of keys; how a charge is measured is a parameter.
- CfqFairness.TimeFair: allows one rounding unit for each turn, because cfq_scale_slice rounds every charge down.
- Deadline: the choice of front-merge candidates, last_sector, and a change of the settings while requests wait.
- IV generator: memory ordering weaker than sequential consistency, asynchronous child ciphers, the backlog mark of the request queue, and the completion callbacks.
- Tags: concurrent use of a shared map; the retry of the allocation loop is not needed without it.
- Tags.TagMap.Resize: of a copy that leaves the new map's bounds only the part inside is modelled, because what lies behind is not part of the map.
- Back-merge hash: the conditions of a merge other than adjacency, and the scheduler's own search for front merges.
- CBC and CCM: mapping of scatter lists, the counter-mode encryption of the tag, key setting.
- Template names: the value of a number, which simple_strtol reads, and allocation.
- ioctl, sysfs, bsg, device registration, timers, allocation failure and reference counts, the other ciphers and hashes: plumbing, constant tables or thin wrappers that would only add easy members.
