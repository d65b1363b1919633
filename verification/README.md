# Verification of an encrypted deduplication system

A model in Dafny of the parts of the system where correctness is hard to see from reading one function, with proofs. The
system cuts files into chunks, derives each chunk's key from its hash with the help of an enclave, stores every distinct
encrypted chunk once, and restores files from recipes. The model follows the code's branches, constants, word sizes and
order of steps; where code and comments disagree it follows the code.

| file | what it models |
|---|---|
| `free_list.dfy`, `free_list_progress.dfy` | the reference-counted lock-free free list, as steps of any number of threads; and that its calls get done |
| `tickets.dfy` | the ticket scheme by which consumers dequeue (optimistic count and overcommit) |
| `explicit_producer.dfy`, `explicit_progress.dfy` | an explicit producer's ring of blocks and circular block index, refining a FIFO queue; and that its calls get done |
| `implicit_blocks.dfy` | where every block is while implicit producers fill, drain, release and reuse blocks |
| `implicit_elements.dfy` | what happens to elements meanwhile: each sub-queue refines a FIFO queue |
| `implicit_index.dfy` | the ring of entries of an implicit producer's block index, refining a map; single look-ups and bulk walks |
| `implicit_queue.dfy` | both of these in one machine, in which what each takes for granted of the other is shown |
| `implicit_progress.dfy` | that the calls of implicit producers, and the insertions into their indices, get done |
| `links.dfy` | that the tickets are the claims the two kinds of producers start from |
| `producer_table.dfy`, `producer_table_progress.dfy` | the chained linear-probing tables that map thread ids to producers |
| `key_exchange.dfy`, `key_parties.dfy` | the CTR-mode key exchange between client and key enclave: as functions with their laws, and as the two objects |
| `container_names.dfy`, `storage.dfy` | the log-structured container store with index, rollover, restart and read cache |
| `chunking.dfy`, `chunker.dfy` | content-defined chunking with a rolling fingerprint: its laws, and the chunker as an object |
| `pipeline.dfy`, `fairness.dfy`, `marks.dfy` | the concurrent upload stages with bounded queues and done flags; fair schedules; which chunks are sent |
| `dedup.dfy` | which chunks of a batch the server misses, and which of them the client marks |
| `records.dfy`, `uploads.dfy` | batches of records; packing them and storing what they hold |
| `restore.dfy` | the restore rounds of the server, the client that receives them, and the file written |
| `pow_batches.dfy` | the length-prefixed batches hashed and signed by the proof-of-ownership enclave |
| `json.dfy`, `json_text.dfy`, `json_reader.dfy` | the JSON printer and parser: their laws, the texts of RFC 8259 and what the parser makes of them, and the parsing loops |
| `http_response.dfy` | the HTTP response parser as a state machine and an object |
| `response_text.dfy`, `chunked_responses.dfy`, `refused_responses.dfy` | the text of responses in the form of RFC 7230, those the parser reads, and what becomes of all others |
| `number_text.dfy`, `response_meaning.dfy` | how numbers are written, and what the HTTP parser's numbers, names and character classes mean |
| `basics.dfy`, `bytes.dfy` | shared vocabulary: threads, blocks, words, remainders, bytes, exclusive-or |

The concurrent parts are machines: a state, one atomic operation a step, and theorems about every state that some run
reaches (`Reachable`) or about every run. For each machine of the queue runs are given that get to the states the
theorems speak of (the lemmas named `RunTo...`), among them the reuse of a block by an explicit producer, the detaching
of a drained one, and a doubled ring; none gets to a doubled index of an explicit producer. The files named `..._progress`
say that calls end, and with what: by bounds on a thread's own steps, over every run. Where the original works in
place, a class or a method with loops is proved against a function, and the laws are proved about that function.

## Assumptions

- Threads interleave under sequential consistency, one atomic operation a step. Element types do not throw.
- AES, SHA-256, HMAC, CMAC and the chunk cipher are any functions with results of the right size; session decryption undoes encryption.
  Only `KeyExchange.StaleTable` and `KeyExchange.GuardsAgreeExactly`, with the lemmas beside it, need more: that different
  counter blocks have different ciphertexts.
- Words wrap: 64 bits in the queue, 32 bits for key counters, table offsets, restore counters and batch positions, 16 bits for the
  fingerprint. The live window of a sub-queue stays below half the index range (`Windowed`); without that the code's
  comparisons mean nothing. A block index that is doubled has fewer than 2^59 pointers (`ImplicitIndex.Roomy`).
- In variable-size chunking the sliding window is shorter than the minimum chunk size; the program checks only that minimum,
  average and maximum are in order.
- Messages arrive as sent. Files and the databases keep what is written; inserting into the chunk database may fail.
- `MULTI_CLIENT_UPLOAD_TEST` is 0, as set. `STORAGE_CORE_READ_CACHE` is not defined anywhere, so the branch without it is
  the one modelled. `TRACE_DRIVEN_TEST` is 1 as set; the restore model takes it as a setting and covers both values.
  `KEY_GEN_METHOD_TYPE` selects the CFB exchange as set; the CTR exchange modelled is the other choice.

## Where the code departs from its comments or its purpose

- The comments above `include/concurrentqueue.h:1999` and `include/concurrentqueue.h:2943` speak of a division that keeps a negative offset negative. `BLOCK_SIZE` is unsigned,
  so the division is unsigned; the look-ups are right all the same, because index sizes divide 2^59 (`ExplicitProducer.LookUpFinds`).
- `src/enclave/km_enclave/km_enclave.cpp:404` tests another sum than line 345, and both sums wrap. Between the two guards a batch
  is masked with memory beyond the table (`KeyExchange.StrayReadsMatter`); after 2^28 counts in one session the table is used
  again from its start (`KeyExchange.TableUsedAgain`). A batch is right exactly if all its masks are in the table, or neither
  guard lets it use the table, or only the second does after the counter itself has come round (`KeyExchange.GuardsAgreeExactly`).
- A login folds the counts of earlier batches into the base count without generating masks anew, so a filled table goes stale
  (`KeyExchange.StaleTable`), and a login with a matching counter keeps the old nonce (`KeyExchange.MatchingLoginKeepsNonce`).
- The container names run out after the last permutation of their letters; the first name comes up again and its chunks are
  lost (`ContainerNames.NamesRunOut`, `Storage.RunOutLosesStores`). `include/storageCore.hpp:17` calls its 16 MiB body 8 M.
- The client looks at only as many of the server's flags as chunks are missing (`src/enclave/src/powClient.cpp:143`), so a missing
  chunk behind a known one in its batch may not be uploaded. The missing chunks are marked exactly if they come first
  (`Dedup.MarksMissingExactly`, `Dedup.MissingNotMarked`). The server leaves the flags of known chunks as its memory was.
- The size given for a restored batch leaves out eight bytes for each chunk in it (`Restore.SentWhole`); the model's client
  takes the whole packed buffer.
- The length test of `ecall_calcmac` is 64-bit and finds missing room only in batches of at least four bytes
  (`PowBatches.RoomExactly`).
- A JSON number at the very end of the text is read as null (`Json.BareNumberIsLost`), and strings are stored as parsed but read
  out escaped, so object keys are kept in escaped form.
- The HTTP parser reads less than RFC 7230 allows (`RefusedResponses.ReadExactly`, with the condition `ResponseText.Readable`).
  It demands a space behind a header's colon and takes all behind that into the value, so a Transfer-Encoding with a second
  space, with anything behind the word, or with a list of codings goes unnoticed: the response is then taken as complete
  without content (`RefusedResponses.TwoSpacesLoseContent`). It refuses tabs in values, codes below 100, more than one chunk
  extension, and extensions and trailers with anything but letters, digits and spaces (`RefusedResponses.HyphenRefused`).
  Behind an empty reason it takes the line of the first header for the reason.

## Model

| member | source | states |
|---|---|---|
| `FreeList.StepKeepsInv` | include/concurrentqueue.h:1438-1529 | every atomic step of `add` or `try_get` by any thread keeps the free list's invariant |
| `FreeList.ReachableInv` | include/concurrentqueue.h:1428-1529 | the invariant holds after every interleaving |
| `FreeList.SingleOwner` | include/concurrentqueue.h:1438-1529 | a node has at most one owner, and is on the list at most once and then owned by nobody |
| `FreeList.NextStableWhileReferenced` | include/concurrentqueue.h:1452-1490 | while a thread holds a reference on a node, no step of any thread changes its `freeListNext` |
| `FreeList.AssertionHolds` | include/concurrentqueue.h:1470-1473 | the assertion behind a successful swap of the head always holds |
| `FreeList.WordsNeverWrap` | include/concurrentqueue.h:1438-1529 | the reference count is that of the threads holding references, plus at most one; the 32-bit word never wraps into its flag |
| `FreeList.GetReturnsGivenNode` | include/concurrentqueue.h:1470-1481 | `try_get` hands out only nodes that were given to the list and not handed out since |
| `FreeList.QuiescentListIsComplete` | include/concurrentqueue.h:1495-1529 | no node is lost: between calls the list holds exactly the nodes given |
| `FreeListProgress.AloneFinishes` | include/concurrentqueue.h:1438-1529 | wherever the other threads are stopped, a thread that runs alone finishes its call within nineteen steps |
| `FreeListProgress.AddAlone` | include/concurrentqueue.h:1495-1529 | between calls, adding a node puts it on the list with all that were there |
| `FreeListProgress.GetAlone` | include/concurrentqueue.h:1452-1490 | between calls, with any node on the list, `try_get` takes the first one and only it |
| `FreeListProgress.GetTakesOrSeesEmpty` | include/concurrentqueue.h:1452-1490 | whatever others do meanwhile, a `try_get` that returns took a node or read the head of an empty list |
| `Tickets.SingleIsBulkOfOne` | include/concurrentqueue.h:1940-1977 | the two tests of `dequeue` are those of `dequeue_bulk` with one element |
| `Tickets.RoomIsDifference` | include/concurrentqueue.h:2237-2246 | the wrapped difference is positive in the circular order exactly when the tail is ahead, and is then the distance |
| `Tickets.StepKeepsInv` | include/concurrentqueue.h:1940-2037 | every step of any mix of `dequeue` and `dequeue_bulk` keeps the accounting of tickets |
| `Tickets.ReachableInv` | include/concurrentqueue.h:2233-2323 | the accounting holds in every reachable state |
| `Tickets.HeadNeverPassesTail` | include/concurrentqueue.h:2233-2323 | `headIndex` never passes `tailIndex`; overcommit and head together never exceed the optimistic count |
| `Tickets.TakingIsSafe` | include/concurrentqueue.h:2245-2254 | the indices a thread is about to take are all enqueued |
| `Tickets.ExactlyOnce` | include/concurrentqueue.h:2233-2254 | what the dequeues claimed is apart and together exactly everything below the head: each index goes to one dequeue only, and to its thread |
| `Tickets.QuietBalance` | include/concurrentqueue.h:2316-2319 | between calls every ticket drawn was used or paid back |
| `Tickets.NothingStranded` | include/concurrentqueue.h:2233-2323 | from any quiet state a lone consumer gets as many elements as it asks for or there are: failed attempts strand nothing |
| `ExplicitProducer.LookUpFinds` | include/concurrentqueue.h:1993-2002 | the wrapped look-up arithmetic finds the slot of an index's block from any later front, for all index values and sizes |
| `ExplicitProducer.CopyIndex` | include/concurrentqueue.h:2356-2363 | the copying loop copies exactly the used entries, in order |
| `ExplicitProducer.GrownHeader` | include/concurrentqueue.h:2341-2377 | a doubled index is in order for all live blocks |
| `ExplicitProducer.StepKeepsInv` | include/concurrentqueue.h:1834-2319 | every step of the producer and of any number of consumers, single and bulk, keeps the ring, the indices and the flags in order |
| `ExplicitProducer.LookUpFindsElement` | include/concurrentqueue.h:1988-2026 | the block a consumer looked up or walked to holds the element of its index, through wrap-around, reuse and doubling |
| `ExplicitProducer.WalkFindsBlocks` | include/concurrentqueue.h:2254-2319 | in the one index a bulk dequeue loaded, the slot m further has the block that holds the claimed elements m blocks further |
| `ExplicitProducer.FlagStillClear` | include/concurrentqueue.h:1576-1607 | the flag a consumer sets was clear, singly or in bulk |
| `ExplicitProducer.HeadNotPastTail` | include/concurrentqueue.h:1857-1858 | the producer's assertion about head and tail holds |
| `ExplicitProducer.ReusedBlockIsFree` | include/concurrentqueue.h:1842-1845 | a block is reused only when no consumer is still at an element in it |
| `ExplicitProducer.StepRefines` | include/concurrentqueue.h:1834-2319 | each step is one of a plain queue, or none |
| `ExplicitProducer.FifoRefinement` | include/concurrentqueue.h:1834-2319 | every run with one producer is a run of a plain first-in first-out queue, from which a bulk dequeue takes all its elements at once |
| `ExplicitProgress.EnqueueOutcome` | include/concurrentqueue.h:1834-1937 | over every run, an enqueue that has returned put its element at the end, unless some step of it found no leeway or a failed allocation; then, and only then, the queue is as before; it returns within forty of its own steps |
| `ExplicitProgress.EnqueueSucceeds` | include/concurrentqueue.h:1834-1937 | with leeway at its start and allocations that succeed, an enqueue always puts its element into the queue: through scanning, reuse, doubling of the index and insertion of a new block |
| `ExplicitProgress.EnqueueAlone` | include/concurrentqueue.h:1834-1937 | left alone, with a fresh block at hand, it gets there |
| `ExplicitProgress.RoomyIs` | include/concurrentqueue.h:1859-1864 | the comparison of wrapped indices says that another block leaves less than half the index range between head and tail |
| `ExplicitProgress.DrainedIsReused` | include/concurrentqueue.h:1840-1852 | with the oldest block drained, an enqueue at the end of a block always succeeds and takes that block: no leeway, no new block and no larger index |
| `ExplicitProgress.QuietIsDrained` | include/concurrentqueue.h:1576-1607 | with no dequeue under way, a block behind the head has all its flags set |
| `ExplicitProgress.DequeueReturns` | include/concurrentqueue.h:2245-2323 | a dequeue of n elements returns within 3n + 3 of its own steps and never waits |
| `ImplicitBlocks.StepKeepsInv` | include/concurrentqueue.h:2472-2604 | every step of any number of threads keeps every block accounted for |
| `ImplicitBlocks.OnePlace` | include/concurrentqueue.h:3039-3092 | every block is in exactly one place: unallocated, pool, free list, one index entry, or one thread's hands |
| `ImplicitBlocks.FindSucceeds` | include/concurrentqueue.h:2549-2554 | a claimed index is always found in the block index |
| `ImplicitBlocks.ReleasedWhenDrained` | include/concurrentqueue.h:2584-2593 | a block is released by one thread, when all its slots have been dequeued, nobody is in it, and the tail is past it |
| `ImplicitBlocks.CounterBelow` | include/concurrentqueue.h:1584-1588 | the count of dequeued slots was below the block's size, as asserted |
| `ImplicitBlocks.StoresIntoOwnBlock` | include/concurrentqueue.h:2528-2532 | an element is stored into the block the index has for the tail |
| `ImplicitBlocks.ReleasedOnce` | include/concurrentqueue.h:2765-2855 | a block number that was released never comes back |
| `ImplicitBlocks.QuietIndex` | include/concurrentqueue.h:2472-2604 | between calls an index holds exactly the started blocks that are not drained |
| `ImplicitElements.StepKeepsInv` | include/concurrentqueue.h:2472-2855 | every step of all threads keeps each stored and not yet taken element in the cell its index has, and what dequeues took is what was enqueued |
| `ImplicitElements.TakenIsEnqueued` | include/concurrentqueue.h:2549-2582 | what a thread takes out of a block is the element enqueued with its index, however blocks are shared, released and used again |
| `ImplicitElements.FifoRefinement` | include/concurrentqueue.h:2472-2855 | every run of any number of enqueueing and dequeueing threads is a run of one plain first-in first-out queue for each producer |
| `ImplicitProgress.EnqueueOutcome` | include/concurrentqueue.h:2472-2533 | an enqueue that has returned moved the tail on by one, unless some step of it found no leeway or a failed allocation; then, and only then, it did not; it returns within ten of its own steps |
| `ImplicitProgress.EnqueueSucceeds` | include/concurrentqueue.h:2472-2533 | with leeway and allocations that succeed, an enqueue always puts its element into the queue |
| `ImplicitProgress.AllocatesLast` | include/concurrentqueue.h:3039-3092 | a block is allocated only when the pool is used up and `try_get` found none, and it is one that was nowhere before |
| `ImplicitProgress.DequeueReturns` | include/concurrentqueue.h:2765-2855 | a dequeue of n elements returns within 4n of its own steps and never waits |
| `ImplicitIndex.StepKeepsInv` | include/concurrentqueue.h:2886-2991 | every step of the writer (insert, rewind, double) and of readers keeps all rings in order |
| `ImplicitIndex.LookUpIsMap` | include/concurrentqueue.h:2924-2947 | a look-up finds the entry with the block's base and the block's pointer, whatever was inserted, rewound, doubled or drained meanwhile; the assertion at its end holds |
| `ImplicitIndex.WalkIsMap` | include/concurrentqueue.h:2788-2853 | in the one ring a bulk dequeue loaded, the slot m further holds the entry of the block m further, for all claimed indices, through rewinds and doublings |
| `ImplicitIndex.TailHasKey` | include/concurrentqueue.h:2938-2940 | the assertion that the entry at the tail has a key |
| `ImplicitIndex.FreshIsUnused` | include/concurrentqueue.h:2908-2912 | the assertion that a new ring has an unused entry behind its tail |
| `ImplicitIndex.LiveIsIndexed` | include/concurrentqueue.h:2886-2916 | every live block has its entry in the newest ring |
| `ImplicitIndex.CopyRing` | include/concurrentqueue.h:2965-2973 | the copying loop ends after exactly one turn with all pointers copied, oldest first |
| `ImplicitProgress.InsertOutcome` | include/concurrentqueue.h:2886-2922 | an insertion that has ended put one more block into the index, unless an allocation failed; then, and only then, it did not; it ends within nine of its own steps, through doubling or rewinding |
| `ImplicitQueue.StepKeepsInv` | include/concurrentqueue.h:2472-2855 | every step of all threads keeps block life and index rings of a producer together, and each in a state of its own machine |
| `ImplicitQueue.AlwaysTogether` | include/concurrentqueue.h:2472-2855 | after every run the rings have exactly the blocks of the index, and readers and writer are where their threads are |
| `ImplicitQueue.RingsAllow` | include/concurrentqueue.h:2842-2853 | what the rings take for granted is so: threads look up only what is there, and the last in a block is alone when it clears the entry |
| `ImplicitQueue.FoundIsHeld` | include/concurrentqueue.h:2797-2798 | the block a thread goes on with is that of the entry it looked up |
| `ImplicitQueue.NeverWaits` | include/concurrentqueue.h:2472-2855 | a thread in the middle of a call always has a step of its own it can take, in the life of blocks or nearer to it in the rings |
| `Links.TicketsAreExplicitClaim` | include/concurrentqueue.h:2245-2254 | a thread with tickets finds as many elements at an explicit producer's head |
| `Links.TicketsAreImplicitClaim` | include/concurrentqueue.h:2775-2786 | a thread with tickets finds as many indices at an implicit producer's head |
| `ProducerTable.StepKeepsInv` | include/concurrentqueue.h:3374-3524 | every step of any number of threads keeps all tables of the chain in order |
| `ProducerTable.OneProducerPerThread` | include/concurrentqueue.h:3374-3524 | a thread is always given the same producer and no other thread is, across resizes and migration |
| `ProducerTable.BelowThreeQuarters` | include/concurrentqueue.h:3439-3481 | no table ever holds three quarters of its capacity in keys, so every table has an empty slot |
| `ProducerTable.EmptyMeansAbsent` | include/concurrentqueue.h:3395-3436 | linear probing that meets an empty slot has shown the key absent |
| `ProducerTable.ProbesStayInside` | include/concurrentqueue.h:3397-3435 | a probe never goes on for as long as its table |
| `ProducerTable.ProbingEnds` | include/concurrentqueue.h:3390-3524 | every probing step brings the end of the probing nearer |
| `ProducerTableProgress.CallReturns` | include/concurrentqueue.h:3374-3524 | a thread that runs alone comes to the end of its call and is given a producer, unless another one is stopped while it replaces the table |
| `ProducerTableProgress.SameAgain` | include/concurrentqueue.h:3374-3524 | a second call gives it the same one |
| `ProducerTableProgress.GrownIsLeast` | include/concurrentqueue.h:3449-3453 | a table is replaced by the least doubling of which the count is less than half |
| `KeyExchange.LoginAgrees` | src/enclave/km_enclave/km_enclave.cpp:132-196 | a login is answered with one of three outcomes, and after success or reset nonce and count of both sides agree |
| `KeyExchange.MatchingLoginKeepsNonce` | src/enclave/km_enclave/km_enclave.cpp:179-183 | with a matching count the old nonce is kept, so the sides agree exactly when the client presents that one |
| `KeyExchange.StepKeepsLockstep` | src/enclave/km_enclave/km_enclave.cpp:132-416 | every operation of the client or of anybody else keeps client and enclave in lockstep |
| `KeyExchange.RunKeepsLockstep` | src/enclave/km_enclave/km_enclave.cpp:132-416 | lockstep holds over every run of logins, batches and mask generations of all clients |
| `KeyExchange.BatchKeepsLockstep` | src/client/keyClient.cpp:710-775 | both sides count a batch the same, and nothing else changes |
| `KeyExchange.ExchangeGivesKeys` | src/enclave/km_enclave/km_enclave.cpp:333-416 | with agreeing masks the client unmasks exactly SHA256(hash, secret) for each hash, in order |
| `KeyExchange.MaskedOnTheWay` | src/client/keyClient.cpp:710-775 | on the wire are the hashes, and their keys, with the bits flipped where the stream has a one, each followed by its HMAC |
| `KeyExchange.WrongMacRefused` | src/enclave/km_enclave/km_enclave.cpp:132-160 | requests, replies and logins are answered if and only if their HMAC is right; a refused one changes nobody's nonce, count or lockstep |
| `KeyExchange.StreamAt` | src/util/cryptoPrimitive.cpp:324-353 | block i of the stream is the cipher of the count i further, in four bytes, and the nonce |
| `KeyExchange.KeyAt` | src/enclave/km_enclave/km_enclave.cpp:393-403 | key j is the SHA-256 of hash j and the secret |
| `KeyExchange.MasksFollowOn` | src/client/keyClient.cpp:710-775 | the masks of consecutive batches are consecutive parts of one stream: none is used twice |
| `KeyExchange.OnlineAgrees` | src/enclave/km_enclave/km_enclave.cpp:349-390 | generated masks always agree |
| `KeyExchange.OfflineAgrees` | src/enclave/km_enclave/km_enclave.cpp:341-348 | masks from the table are those that would be generated, while 16 * counter + 2 * length stays within the table |
| `KeyExchange.OfflineRun` | src/enclave/km_enclave/km_enclave.cpp:214-286 | generate masks, log in, any batches within the table: the client gets the keys it should, whatever others do meanwhile |
| `KeyExchange.StaleTable` | src/enclave/km_enclave/km_enclave.cpp:132-140 | a filled table gives the right masks if and only if the base count is the one it was filled for |
| `KeyExchange.GuardsAgreeExactly` | src/enclave/km_enclave/km_enclave.cpp:345-410 | for every count and every length an int can hold, under 32-bit sums: a batch gets the right masks whatever lies behind the table if and only if it fits (`BatchFits`) |
| `KeyExchange.StrayReadsMatter` | src/enclave/km_enclave/km_enclave.cpp:404-407 | between the guards there is memory for which the reply is wrong |
| `KeyExchange.FirstComesRound` | src/enclave/km_enclave/km_enclave.cpp:345-348 | a first use of the table past 2^28 counts never gets the right masks |
| `KeyExchange.SecondComesRound` | src/enclave/km_enclave/km_enclave.cpp:404-407 | nor does a second use, unless the counter itself has come round |
| `KeyExchange.TableUsedAgain` | src/enclave/km_enclave/km_enclave.cpp:345-348 | a batch of one chunk at count 2^28 gets wrong masks, whatever memory holds |
| `KeyParties.GenerateMasks` | src/util/cryptoPrimitive.cpp:324-353 | the client's loop generates exactly the CTR stream (section 6.5 of NIST SP 800-38A), two blocks a round |
| `KeyParties.XorBuffers` | src/client/keyClient.cpp:702-708 | the loop gives the string whose bits are set exactly where those of the two buffers differ |
| `KeyParties.DeriveKeys` | src/enclave/km_enclave/km_enclave.cpp:393-403 | one key for each hash, in order |
| `KeyParties.KeyEnclave.constructor` | src/enclave/km_enclave/km_enclave.cpp:322-331 | an empty client list and a zeroed table |
| `KeyParties.KeyEnclave.ClientStatusModify` | src/enclave/km_enclave/km_enclave.cpp:132-196 | a login changes the client list as the login function says, for every message |
| `KeyParties.KeyEnclave.FoldCounts` | src/enclave/km_enclave/km_enclave.cpp:134-139 | every client's count is folded into its base |
| `KeyParties.KeyEnclave.FindNonce` | src/enclave/km_enclave/km_enclave.cpp:164-170 | finds whether any client has the nonce |
| `KeyParties.KeyEnclave.SetNextEncryptionMask` | src/enclave/km_enclave/km_enclave.cpp:214-286 | the table is filled for the first client met, and nothing else changes |
| `KeyParties.KeyEnclave.FillMask` | src/enclave/km_enclave/km_enclave.cpp:243-278 | the table is the CTR stream from the client's count on |
| `KeyParties.KeyEnclave.KeygenCtr` | src/enclave/km_enclave/km_enclave.cpp:333-416 | reply and new counts are those of the exchange function, for both uses of the table |
| `KeyParties.KeyClient.InitClientCTRInfo` | src/client/keyClient.cpp:94-196 | the login loop ends, with the sides in lockstep, or with every nonce there was to try taken by another client |
| `KeyParties.KeyClient.SendLogin` | src/client/keyClient.cpp:94-139 | one login: the enclave's answer decides what the client's counter becomes |
| `KeyParties.KeyClient.KeyExchange` | src/client/keyClient.cpp:710-775 | one batch is one exchange, on the states of both objects |
| `Storage.StorageCore.constructor` | src/server/storageCore.cpp:30-54 | a store opened on a clean disk carries on from it, in good order |
| `Storage.StorageCore.Close` | src/server/storageCore.cpp:56-68 | closing leaves a clean disk with exactly the used bytes saved |
| `Storage.StorageCore.StoreChunk` | src/server/storageCore.cpp:274-314 | a successful store writes the bytes to the map from hashes to bytes and touches no other hash; the container is sealed exactly when used bytes and chunk reach its maximum; the store stays in good order unless the names run out |
| `Storage.StorageCore.WriteContainer` | src/server/storageCore.cpp:356-377 | the bytes stand in the current container, or, exactly when used bytes and chunk reach its maximum, in the next one behind the saved one |
| `Storage.StorageCore.Roll` | src/server/storageCore.cpp:365-368 | sealing keeps the store in good order unless the names have run out |
| `Storage.StorageCore.RestoreChunk` | src/server/storageCore.cpp:316-354 | restoring gives the bytes last stored under the hash, through every rollover, restart and cached read |
| `Storage.StorageCore.ReadContainer` | src/server/storageCore.cpp:379-440 | the bytes of an entry are read from the current body, the cache or the file, and the cache stays equal to the file it names |
| `Storage.ContentsAfter` | src/server/storageCore.cpp:274-314 | one store more changes what is under its own hash and nothing else |
| `Storage.StoredGood` | src/server/storageCore.cpp:356-377 | an appended store keeps every entry's range inside its container and apart from all others |
| `Storage.StoredDisjoint` | src/server/storageCore.cpp:372-376 | its range overlaps no range of an earlier store |
| `Storage.RolledGood` | src/server/storageCore.cpp:363-371 | under a later name everything saved so far is sealed and stays where it is |
| `Storage.CachedGood` | src/server/storageCore.cpp:379-440 | a sealed container read into the cache keeps the cache equal to a container that is never rewritten |
| `Storage.RunOutLosesStores` | src/server/storageCore.cpp:365-370 | the next name is that of a container in use only once the names have run out, and then its chunks are not where the index says |
| `ContainerNames.NextIsLater` | src/server/storageCore.cpp:367 | the next name is a rearrangement, later in the dictionary exactly unless the old one was the last |
| `ContainerNames.NextIsNext` | src/server/storageCore.cpp:367 | nothing lies between: every rearrangement that comes later is the next name or comes after it |
| `ContainerNames.NamesRunOut` | src/server/storageCore.cpp:47-50 | after the last of the fifteen letters' permutations the first name comes again |
| `ContainerNames.NextOfLast` | src/server/storageCore.cpp:367 | a non-increasing name is followed by its reverse |
| `Chunking.ChunksConcat` | src/client/chunker.cpp:350-462 | the chunks make up the data |
| `Chunking.ChunkSizes` | src/client/chunker.cpp:385-440 | all chunks but the last are within minimum and maximum and end by rule; none is empty or too long |
| `Chunking.Resynchronises` | src/client/chunker.cpp:365-440 | if p ends at a cut, chunking p and what follows is chunking them apart |
| `Chunking.ResynchronisesExactly` | src/client/chunker.cpp:365-440 | chunking p apart is right for everything that may follow if and only if p ends at a cut |
| `Chunking.PolyFirst` | src/client/chunker.cpp:373-380 | the first byte of a window has the weight the table takes off |
| `Chunking.SlideIsPoly` | src/client/chunker.cpp:374-380 | one slide turns the fingerprint of a window into that of the next |
| `Chunking.FillStep` | src/client/chunker.cpp:367-372 | a byte added to the first window adds its weight in the full window |
| `Chunking.IntermediatesFit` | src/client/chunker.cpp:122-145 | no 32-bit intermediate value overflows |
| `ChunkerLoop.Chunker.constructor` | src/client/chunker.cpp:94-156 | the tables hold reduced powers and what cancels each byte; the anchor is the largest power of two not above the average size |
| `ChunkerLoop.Chunker.FillPowers` | src/client/chunker.cpp:128-132 | the table of powers, filled in 32-bit arithmetic, holds the reduced powers of the base |
| `ChunkerLoop.Chunker.FillRemoves` | src/client/chunker.cpp:136-145 | each entry cancels its byte's weight in a full window |
| `ChunkerLoop.Chunker.MaskBits` | src/client/chunker.cpp:149-154 | the loop finds the number of mask bits |
| `ChunkerLoop.Chunker.VarSizeChunking` | src/client/chunker.cpp:350-462 | the loop over the bytes gives exactly the chunks of the data |
| `ChunkerLoop.Chunker.AddToChunk` | src/client/chunker.cpp:363-440 | one byte either completes a chunk that ends by rule, or the fingerprint is the direct polynomial of the last window and nothing was a cut |
| `ChunkerLoop.SlideByIs` | src/client/chunker.cpp:373-380 | the 32-bit slide gives the direct polynomial of the new window |
| `ChunkerLoop.RemoveEntryCancels` | src/client/chunker.cpp:136-145 | an entry of the removal table cancels its byte |
| `Pipeline.StageKeepsFlow` | src/client/keyClient.cpp:479-560 | no step of a stage loses, repeats or reorders chunks, or loses a recipe |
| `Pipeline.StepKeepsInv` | src/client/fingerprinter.cpp:51-87 | every step of any stage keeps the flow and the meaning of the done flags |
| `Pipeline.NothingLost` | src/enclave/src/powClient.cpp:78-176 | chunks delivered, in queues and in batches always add up, in order, to those produced |
| `Pipeline.DoneAfterForwarding` | src/client/fingerprinter.cpp:51-87 | a done flag is set only when everything behind it has been forwarded |
| `Pipeline.FinishedInOrder` | src/client/sender.cpp:356-448 | the finished sender's recipe list is the chunks 0 to n-1 in order, and what it sent are exactly those marked for upload |
| `Marks.SentAreRequired` | src/enclave/src/powClient.cpp:143-152 | the finished sender has sent exactly the chunks a marking stage was answered to mark |
| `Marks.FullBatches` | src/client/sender.cpp:421-448 | every stage forwards, and the sender sends, full batches but for the last one |
| `Marks.MarkAt` | src/enclave/src/powClient.cpp:143-147 | entry k of a batch is marked if its flag is set, and otherwise as it was |
| `Dedup.DedupByHash` | src/server/dedupCore.cpp:33-47 | the loop sets the flags of missing chunks, leaves the others as they were, and counts the missing ones |
| `Dedup.MarkBatch` | src/enclave/src/powClient.cpp:143-147 | the loop marks by the first flags only, as many as chunks are missing |
| `Dedup.MarksMissingExactly` | src/enclave/src/powClient.cpp:143-147 | what is marked are just the missing chunks if and only if these come before all others in the batch |
| `Dedup.MissingNotMarked` | src/enclave/src/powClient.cpp:143-147 | a known chunk and then a missing one: the missing one is not marked |
| `Pipeline.MeasureNeverRises` | include/messageQueue.hpp:14-38 | no step raises the measure of items, remaining stages and done flags |
| `Pipeline.AlwaysProgress` | include/messageQueue.hpp:14-38 | in every unfinished state some thread lowers the measure within five steps of its own: the bounded queues do not deadlock |
| `Fairness.AnyTurn` | include/messageQueue.hpp:14-38 | whoever takes a turn, a thread that can lower the measure stays as near to doing so, and its own turns bring it nearer, unless the measure falls |
| `Fairness.FairDelivery` | src/client/sender.cpp:356-448 | under every fair schedule the sender finishes, with the chunks 0 to n-1 in order in its recipe list and the marked ones sent |
| `Fairness.AllEnd` | src/client/fingerprinter.cpp:51-87 | under every fair schedule every thread ends, with all queues empty and done |
| `Fairness.RoundRobinFair` | src/client/fingerprinter.cpp:51-87 | taking turns is fair, so there are such schedules |
| `Records.RecordInBatch` | src/client/sender.cpp:383-389 | every record packed stands where reading on from the record before it looks, whatever trails the batch |
| `Uploads.ChunkBatch.Add` | src/client/sender.cpp:383-390 | the batch buffer holds the records added, in order, and has room for the whole batch |
| `Uploads.ChunkBatch.Seal` | src/client/sender.cpp:118-133 | what is received is the count, the records, and sixteen further bytes |
| `Uploads.StoreChunks` | src/server/storageCore.cpp:98-118 | all records of a batch are stored in order up to the first the database refuses, whatever trails them, and afterwards the store holds what writing them to a map would |
| `Uploads.StoreNext` | src/server/storageCore.cpp:105-115 | hash, size and bytes of one record are read and stored |
| `Uploads.LoggedContents` | src/server/storageCore.cpp:98-118 | storing records one by one is writing them to the map from hashes to bytes |
| `Restore.RestoreRecipeAndChunk` | src/server/storageCore.cpp:228-272 | a range of entries is packed if and only if every chunk in it can be restored, each with its ID, size and bytes |
| `Restore.SendChunks` | src/server/dataSR.cpp:237-299 | the loop ends; its rounds split the recipe into consecutive ranges no larger than a batch, and it succeeds if and only if every chunk can be restored |
| `Restore.SentWhole` | src/server/dataSR.cpp:255-259 | the size given covers the packed buffer if and only if no chunk is in it |
| `Restore.AskFor` | src/client/recvDecode.cpp:219-227 | the loop writes size and hash of each entry to where the server looks for them |
| `Restore.WishAt` | src/server/storageCore.cpp:231-235 | where the server looks for entry i stand its size and hash |
| `Restore.ReceiveBatch` | src/client/recvDecode.cpp:312-343 | the chunks of a packed batch come out in order, each decrypted with the key of its ID |
| `Restore.Receive` | src/client/recvDecode.cpp:288-345 | after all rounds the queue holds the plain chunks in recipe order |
| `Restore.Retrieve` | src/client/retriever.cpp:28-44 | chunks are written in order of arrival |
| `Restore.RestoreFile` | src/client/recvDecode.cpp:288-345 | store, rounds, decryption and writing together give back the file that was chunked |
| `PowBatches.SplitFrames` | src/enclave/src/powClient.cpp:84-93 | every batch packed from chunks is taken apart into these chunks |
| `PowBatches.FramesOfSplit` | src/enclave/pow_enclave/pow_enclave.cpp:95-113 | whatever can be taken apart was packed from the chunks found |
| `PowBatches.AcceptsExactly` | src/enclave/pow_enclave/pow_enclave.cpp:95-113 | accepted are exactly the concatenations of length-prefixed chunks, and the chunks are unique |
| `PowBatches.CalcMac` | src/enclave/pow_enclave/pow_enclave.cpp:87-118 | in 32-bit arithmetic, a batch is accepted if and only if it can be taken apart, with the hashes of its chunks in order and the MAC of these |
| `PowBatches.RoomExactly` | src/enclave/pow_enclave/pow_enclave.cpp:95-99 | the test for room finds every missing length if and only if the batch has at least four bytes |
| `PowBatches.HashAt` | src/enclave/src/powClient.cpp:108-111 | hash i of the list is that of chunk i |
| `PowBatches.PowBatch.Add` | src/enclave/src/powClient.cpp:86-94 | the buffer holds the chunks added, each behind its length |
| `PowBatches.PowBatch.Request` | src/enclave/src/powClient.cpp:96-120 | the enclave accepts every batch of the client, and each chunk gets its own hash |
| `Json.StringRoundTrip` | src/enclave/include/json.hpp:644-698 | reading an escaped text up to its closing quote gives the text back |
| `Json.StolOfDecimal` | src/enclave/include/json.hpp:700-749 | a printed long is read back |
| `Json.NumberRoundTrip` | src/enclave/include/json.hpp:700-749 | a printed number followed by a delimiter is read back and the delimiter left |
| `Json.InsertLast` | src/enclave/include/json.hpp:321-325 | assigning members in the order of their keys appends them |
| `Json.InsertIsUpdate` | src/enclave/include/json.hpp:321-325 | assigning to a member is assigning in a map: it has the new value, and every other key has what it had |
| `Json.LookupDecides` | src/enclave/include/json.hpp:321-325 | objects that have the same under every key are the same |
| `Json.RoundTrip` | src/enclave/include/json.hpp:457-502 | a value printed anywhere in a text is read back from there, up to exactly its end |
| `Json.ParseUndoesDump` | src/enclave/include/json.hpp:777-800 | parsing a printed value gives it back and consumes exactly the printed text (sections 4, 5 and 7 of RFC 8259) |
| `Json.RoundTripExactly` | src/enclave/include/json.hpp:457-502 | for every value at all: it survives printing and parsing if and only if its keys are in escaped form and in order, its numbers fit, and it is not a bare number |
| `Json.ParsedIsPrintable` | src/enclave/include/json.hpp:566-800 | whatever is parsed has keys in escaped form and numbers that fit |
| `Json.ReparseIsStable` | src/enclave/include/json.hpp:457-502 | printing what was parsed and parsing it again changes nothing |
| `Json.BareNumberIsLost` | src/enclave/include/json.hpp:700-749 | a number at the very end of the text is read as null |
| `JsonText.TextRead` | src/enclave/include/json.hpp:566-800 | every text by the grammar of RFC 8259 with whole numbers, whatever its space, escapes and order of members, is read to its end and means what it says |
| `JsonText.LastWins` | src/enclave/include/json.hpp:575-611 | of members with the same key the last one counts |
| `JsonText.MeaningDecides` | src/enclave/include/json.hpp:566-800 | what a value means decides what it is |
| `JsonText.PrintedEscapes` | src/enclave/include/json.hpp:28-59 | a character is printed by its short escape (section 7 of RFC 8259) if it has one, but for the slash, and else as it is |
| `JsonReader.JsonEscape` | src/enclave/include/json.hpp:28-59 | the loop gives the escaped text |
| `JsonReader.ConsumeWs` | src/enclave/include/json.hpp:569-573 | the loop stops at the first character that is not a space |
| `JsonReader.ReadString` | src/enclave/include/json.hpp:644-698 | the loop reads what the string function says, for every text |
| `JsonReader.ReadNumber` | src/enclave/include/json.hpp:700-749 | the loop reads what the number function says, for every text |
| `JsonReader.ReadArray` | src/enclave/include/json.hpp:613-642 | the loop reads what the array function says, for every text |
| `JsonReader.ReadObject` | src/enclave/include/json.hpp:575-611 | the loop reads what the object function says, for every text |
| `JsonReader.ReadNext` | src/enclave/include/json.hpp:777-800 | the first character decides which parser runs, for every text |
| `HttpResponse.HttpResponseParser.Consume` | src/enclave/include/httpparser/httpresponseparser.h:53-533 | the loop runs the state machine over the input until it is done |
| `HttpResponse.HttpResponseParser.ConsumeStatusLine` | src/enclave/include/httpparser/httpresponseparser.h:61-230 | the cases of the status line are the machine's steps |
| `HttpResponse.HttpResponseParser.ConsumeHeader` | src/enclave/include/httpparser/httpresponseparser.h:231-379 | the cases of the headers and of a sized body are the machine's steps |
| `HttpResponse.HttpResponseParser.ConsumeChunk` | src/enclave/include/httpparser/httpresponseparser.h:380-526 | the cases of a chunked body are the machine's steps |
| `HttpResponse.FeedIsRun` | src/enclave/include/httpparser/httpresponseparser.h:42-45 | how a response is cut into pieces makes no difference |
| `ResponseMeaning.HexExactly` | src/enclave/include/httpparser/httpresponseparser.h:433 | the number read is n exactly for the texts that write n in base sixteen, in either case and with leading zeros |
| `ResponseMeaning.DecimalExactly` | src/enclave/include/httpparser/httpresponseparser.h:102-190 | and so in base ten |
| `ResponseMeaning.AtoiReads` | src/enclave/include/httpparser/httpresponseparser.h:302 | spaces, a sign and a number are read up to the first character that is no digit |
| `ResponseMeaning.LengthIs` | src/enclave/include/httpparser/httpresponseparser.h:300-303 | the size of the content is the number the value of the last Content-Length field begins with |
| `ResponseMeaning.CharacterClasses` | src/enclave/include/httpparser/httpresponseparser.h:536-566 | tokens are made of the characters of section 3.2.6 of RFC 7230, and controls are all others but visible ones, the space and octets from 128 on |
| `ResponseMeaning.SameName` | src/enclave/include/httpparser/httpresponseparser.h:300-307 | names are compared letter by letter, whatever the case of each |
| `ResponseMeaning.StaysOpen` | src/enclave/include/httpparser/httpresponseparser.h:331-352 | the first Connection header decides whether the connection stays open, and without one the version |
| `ResponseMeaning.FoundIs` | src/enclave/include/httpparser/httpresponseparser.h:61-352 | what is found in a head are the numbers it writes, and whether the connection stays open |
| `ChunkedResponses.EatsStatusLine` | src/enclave/include/httpparser/httpresponseparser.h:61-230 | the status line is read into version, code and text |
| `ChunkedResponses.HeadersRead` | src/enclave/include/httpparser/httpresponseparser.h:231-330 | header fields, folded or not, are read into names and values; chunks are turned on exactly by a Transfer-Encoding field saying so at the end of one of its lines |
| `ChunkedResponses.EatsChunk` | src/enclave/include/httpparser/httpresponseparser.h:380-526 | a chunk with its size line adds exactly its bytes to the content |
| `ChunkedResponses.ChunkedResponseRead` | src/enclave/include/httpparser/httpresponseparser.h:53-533 | a chunked response of which all is read, in whatever pieces it comes, is complete with the concatenation of its chunks as content and the head's status and headers |
| `ChunkedResponses.PartIncomplete` | src/enclave/include/httpparser/httpresponseparser.h:53-533 | no proper beginning of it is taken for complete or wrong |
| `ChunkedResponses.SizedResponseRead` | src/enclave/include/httpparser/httpresponseparser.h:331-379 | a response whose last Content-Length, below 2^31, gives the length of its content is complete with exactly that content |
| `RefusedResponses.HeadFails` | src/enclave/include/httpparser/httpresponseparser.h:61-330 | every head in the form of section 3 of RFC 7230 that is not read is refused |
| `RefusedResponses.BodyFails` | src/enclave/include/httpparser/httpresponseparser.h:380-526 | every chunked body in the form of section 4.1 of RFC 7230 that is not read is refused |
| `RefusedResponses.ChunkedOutcome` | src/enclave/include/httpparser/httpresponseparser.h:53-533 | every response in the form of a chunked one is refused for its head, or taken as complete without content, or refused for its body, or read with all its chunks; and which of these |
| `RefusedResponses.ReadExactly` | src/enclave/include/httpparser/httpresponseparser.h:53-533 | such a response ends up complete with the bytes of its chunks if and only if it is readable |
| `RefusedResponses.TwoSpacesLoseContent` | src/enclave/include/httpparser/httpresponseparser.h:285-320 | two spaces in front of chunked: complete, with the chunk lost |
| `RefusedResponses.HyphenRefused` | src/enclave/include/httpparser/httpresponseparser.h:471-484 | a hyphen in a trailer's name: refused |
| `RefusedResponses.ParseAll` | src/enclave/utils/agent_wget.cpp:214-261 | the caller puts together what it reads and parses it; for chunked responses it gets the bytes of the chunks if and only if the response is readable |
| `Bytes.XorTwice` | src/client/keyClient.cpp:702-708 | masking twice with the same mask is no masking |
| `Bytes.XorExactly` | src/client/keyClient.cpp:702-708 | the exclusive-or is the one string whose bits tell where those of the other two differ |
| `Bytes.Le32At` | src/server/storageCore.cpp:108-110 | byte k of a stored word is the digit that weighs 256^k |
| `Bytes.Le32RoundTrip` | src/server/storageCore.cpp:108-110 | a stored 32-bit length is read back |

## Left out

- Sockets, TLS, attestation, sealing, certificates, LevelDB itself, configuration reading and debug output.
- Memory orders weaker than sequential consistency, exceptions, destructors, moving and swapping of queues, thread-exit notification.
- Bulk enqueueing of both kinds of producers.
- In the implicit sub-queues the free list is a set with single owners, which `free_list.dfy` justifies.
- Recycling of producers and failing allocation in the producer table.
- A sub-queue that is asked for no elements: `dequeue_bulk` with a maximum of 0.
- The CFB key exchange, key regression across attestations and the renewal of the session key: one session key is fixed.
- Masks for more than one client at a time: the enclave's limit is one.
- Failures of the cipher library inside the enclave, and of SHA-256 in `ecall_calcmac`.
- Fixed-size chunking, the trace-driven chunkers, and files that need more than one read in variable-size chunking, where a
  pending chunk's buffer is cleared.
- Failures inside the upload pipeline; a stage that fails stops the program.
- A second download over the same connection, whose counters start from the first one's.
- Negative counts and sizes in batches, and batches cut short, which make the servers read beyond the buffer.
- Overflow of the version numbers in HTTP responses, which is undefined in the original; a Content-Length that is negative or
  does not fit an int, for which it throws or is undefined (`ChunkedResponses.LengthsFit`); failing allocation of the content.
- RefusedResponses.ParseAll: takes the reads from the pipe as they succeed, and leaves out failing reads and the exit codes of
  wget for which the response is not parsed, because processes and pipes are not modelled.
- JsonReader.ReadNumber: stops at a fraction or an exponent, which the source reads on, because values are whole numbers here.
- Restore.Receive: takes each message as the whole packed buffer, since the size given leaves bytes out.
- PowBatches.CalcMac: does not cover batches of one to three bytes, which the client never sends and for which the original reads beyond the buffer.
- Storage.StorageCore.StoreChunk: promises nothing about the store's order once the container names have run out.
- FreeListProgress.AloneFinishes: is about a thread that runs alone; that some thread gets on whenever several contend is not stated.
- ProducerTableProgress.CallReturns: leaves out a thread that comes while another one is replacing a table three quarters full; it
  spins until that is done.
