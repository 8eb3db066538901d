# dingo-sdk benchmark client, modelled in Dafny

This project models the client side of the dingo-sdk benchmark tool
(`src/benchmark/operation.cc`) and the routing contract of the SDK's
vector index (`src/sdk/vector/vector_index.h`), and proves properties of
the model.

The model covers:

- **key encoding**: the raw and transactional tags, the region prefix and the zero-padded counter;
- **the transaction step sequence**: NewTransaction, the mutations or reads, PreCommit, Commit and the delete;
- **the byte accounting** of puts and gets;
- **region arrangement**: batches of 256, with the key list kept alongside;
- **the sequential read cursor**;
- **the two bulk-load workers**: the synthetic one and the dataset one, with their retry loops;
- **the id-order check** run before a vector put;
- **search parameters**: built from the flags and the test entries;
- **recall** of the search answers;
- **the DiskANN build/load polling** before the first dataset search, and the once-only gate around it;
- **the `VectorIndex` class**: its staleness flag and its two partition maps.

Everything remote or concurrent is a parameter of the model:

- A remote call (RawKV, Transaction, VectorClient) stands for its answer. That is a `Status`, an answer function `nat -> Status` indexed by call number, or a script of answers for the loops that retry or poll.
- The random number generator is a draw function.
- `GenId` of the vector index entry is a function from call number to id. `VectorIndexEntry::GenId` is not part of this model.
- A loop whose script of answers runs out is reported as still waiting or stalled. The source would keep going.
- The flags form one immutable record, `Settings.Config`.

Modules:

- `Common`: status, key-value pairs, byte sums, random strings.
- `Keys`: `GenSeqString` and the key tags.
- `Settings`: the flags, `ToUpper`, isolation level, filter strings.
- `Txn`: the transaction protocol and the four transactional calls.
- `Regions`: the `RegionEntry` class and the raw and transactional fill, arrange and read operations.
- `BulkLoad`: the work split, the two workers, `IsMonotoneIncreasing`.
- `Search`: search parameters, test entry selection, recall.
- `DiskAnn`: polling and preparation.
- `Router`: the `VectorIndex` class.

Where the code and its design notes disagree, the model follows the code:

- **DiskANN region states:** the region states returned by the first `StatusByIndexId` call are not checked for failures. Only their ids are taken.
- **DiskANN call failures:** the build and load calls abort the preparation only on a build (load) failure status. Any other error they return is ignored.
- **Dataset searches:** these are always top-k. The range-search flag is read only by the synthetic search.

## Model

| member | source | states |
|---|---|---|
| Common.PairBytesAppend | src/benchmark/operation.cc:310-312 | the byte count of a batch is additive over concatenation, so the sum over a batch does not depend on how it is split |
| Common.PairBytesUniform | src/benchmark/operation.cc:243-246 | a batch whose keys and values all have fixed lengths weighs count × (key length + value length) |
| Common.RandomString | src/benchmark/operation.cc:171-183 | a random string has exactly `len` characters, none when `len` is negative |
| Common.RandomStringAlphabet | src/benchmark/operation.cc:104-106 | every character of a random string is from the alphabet a-z, 0-9, whatever the generator draws |
| Keys.GenSeqStringRoundTrip | src/benchmark/operation.cc:185 | parsing the zero-padded number string gives back the counter value, for every width |
| Keys.GenSeqStringLength | src/benchmark/operation.cc:185 | the string has max(width, digits) characters, exactly `width` when the number fits |
| Keys.GenSeqStringIsPadding | src/benchmark/operation.cc:185 | the string is width − digits zeros followed by the number's decimal digits |
| Keys.ParseFixedDigits | src/benchmark/operation.cc:185 | printing a fitting number with `w` digits and parsing it back is the identity |
| Keys.FixedDigitsOrdered | src/benchmark/operation.cc:185 | at a fixed width a smaller number gives a lexicographically smaller string |
| Keys.FixedDigitsPad | src/benchmark/operation.cc:185 | widening the field only adds leading zeros |
| Keys.NumDigitsFits | src/benchmark/operation.cc:185 | a number fits `d` digits exactly when its digit count is at most `d` |
| Keys.SeqKeyInjective | src/benchmark/operation.cc:204-211 | distinct counter values give distinct sequential keys (both directions) |
| Keys.SeqKeyLength | src/benchmark/operation.cc:204-211 | a fitting counter value gives a key of `key_size` + 1 characters |
| Keys.SeqKeyOrdered | src/benchmark/operation.cc:204-211 | fitting counter values give keys ordered like the numbers |
| Keys.SeqKeyProperties | src/benchmark/operation.cc:185-188 | the raw and transactional keys of one region are each injective in the counter, never coincide with one another, and have fixed length and numeric order |
| Keys.SeqKeyExample | src/benchmark/operation.cc:211 | prefix "p", key size 8: counters 0 and 99 give "wp0000000" and "wp0000099" |
| Keys.SeqStringZero | src/benchmark/operation.cc:185 | counter 0 at width 7 prints as seven zeros |
| Keys.SeqStringNinetyNine | src/benchmark/operation.cc:185 | counter 99 at width 7 prints as "0000099" |
| Keys.Int32Of | src/benchmark/operation.cc:185 | the `size_t` → `int` conversion lands in the 32-bit signed range and agrees modulo 2^32 |
| Keys.AsWrittenCounterCollision | src/benchmark/operation.cc:206-211 | as written, counters 0 and 2^32 give the same 10-digit string, although both fit |
| Settings.ToUpper | src/benchmark/operation.cc:159 | upper-casing keeps the length |
| Settings.UpperCharMatches | src/benchmark/operation.cc:159 | a character upper-cases to an upper-case letter exactly when it is that letter in either case |
| Settings.ToUpperMatches | src/benchmark/operation.cc:159-162 | comparing the upper-cased flag with an upper-case word is a case-insensitive match |
| Settings.IsolationResolution | src/benchmark/operation.cc:158-168 | "SI" and "RC" in any case select snapshot isolation and read committed; every other string is the fatal case |
| Settings.TxnOptionsFor | src/benchmark/operation.cc:316-319 | the transaction kind follows the pessimistic flag, the isolation is the resolved level, and no options exist when the level is fatal |
| Settings.FilterTypeResolution | src/benchmark/operation.cc:1155-1162 | PRE and POST in any case select the pre and post filter; everything else selects no filter |
| Settings.FilterSourceResolution | src/benchmark/operation.cc:1164-1173 | SCALAR, TABLE and VECTOR_ID in any case select their source; everything else selects none |
| Txn.FirstFailure | src/benchmark/operation.cc:321-344 | the position found is the first failing call at or after `from`: all before it succeed |
| Txn.RunTransaction | src/benchmark/operation.cc:307-351 | the goto sequence makes exactly the calls of the protocol up to the first failure, then deletes, and returns that call's status |
| Txn.ProtocolAt | src/benchmark/operation.cc:321-341 | NewTransaction is call 0, the body calls follow in order, then PreCommit, then Commit |
| Txn.FailureSkipsCommit | src/benchmark/operation.cc:321-339 | a failing NewTransaction, put or get means PreCommit and Commit are never called, and the result is the status of the first failing call |
| Txn.CommitNeedsPreCommit | src/benchmark/operation.cc:335-344 | Commit is called only after PreCommit was called and succeeded |
| Txn.DeletedExactlyOnce | src/benchmark/operation.cc:346-350 | the transaction is deleted exactly once, as the last step, on every path |
| Txn.AllSucceed | src/benchmark/operation.cc:307-351 | when every call succeeds the whole protocol runs and the status is Ok |
| Txn.PutCalls | src/benchmark/operation.cc:327-333 | one Put call per pair |
| Txn.GetCalls | src/benchmark/operation.cc:432-439 | one Get call per key |
| Txn.BatchGetCalls | src/benchmark/operation.cc:475-482 | one BatchGet call per batch |
| Txn.WriteBytes | src/benchmark/operation.cc:310-312 | the write bytes are the sum of key and value sizes over the batch |
| Txn.KvTxnPut | src/benchmark/operation.cc:307-351 | fatal exactly for an unsupported isolation level; otherwise the protocol with one Put per pair, with the write bytes reported whatever the outcome |
| Txn.KvTxnBatchPut | src/benchmark/operation.cc:372-414 | the same protocol with a single BatchPut, and the write bytes summed before the transaction |
| Txn.KvTxnGet | src/benchmark/operation.cc:416-457 | the protocol with one Get per key; neither byte count is set |
| Txn.KvTxnBatchGet | src/benchmark/operation.cc:459-500 | the protocol with one BatchGet per batch of keys; neither byte count is set |
| Regions.BatchKvs | src/benchmark/operation.cc:233-247 | the generator makes exactly `n` records |
| Regions.BatchKvsAt | src/benchmark/operation.cc:234-245 | record `i` of a batch is the record the generator builds at step `i` |
| Regions.BatchKvsPrefix | src/benchmark/operation.cc:234-245 | a shorter run of the generator is a prefix of a longer one |
| Regions.KeysOf | src/benchmark/operation.cc:630 | one recorded key per pair |
| Regions.KeysOfAt | src/benchmark/operation.cc:630 | the i-th recorded key is the key of the i-th pair |
| Regions.SeqRecordKey | src/benchmark/operation.cc:239-243 | sequential record `i` has the key of counter value start + i and a value of `value_size` characters |
| Regions.SeqBatchDistinct | src/benchmark/operation.cc:234-241 | the keys of a sequential batch are pairwise distinct |
| Regions.SeqBatchOrdered | src/benchmark/operation.cc:234-241 | while the counters fit the width, the keys of a sequential batch rise lexicographically |
| Regions.SeqBatchRecordSizes | src/benchmark/operation.cc:234-246 | every record of a fitting sequential batch has a key of `key_size` + 1 and a value of `value_size` characters |
| Regions.SeqBatchBytes | src/benchmark/operation.cc:246 | the write bytes of a fitting sequential batch are n × (key_size + 1 + value_size) |
| Regions.PairBytesUniformCount | src/benchmark/operation.cc:246 | uniform records of count `n` weigh n × (key length + value length) |
| Regions.MissingKeyNeverArranged | src/benchmark/operation.cc:684-686 | a missing-key probe is four characters longer than any arranged key, so it is never an arranged key, raw or transactional |
| Regions.BatchesCount | src/benchmark/operation.cc:623-643 | every iteration that runs handles one more record: all of them while the writes succeed, and up to the one whose batch failed |
| Regions.BatchesContent | src/benchmark/operation.cc:629-637 | while the writes succeed, what was written plus what is pending is exactly the records made |
| Regions.BatchesPrefix | src/benchmark/operation.cc:629-637 | whatever happened, what was written is a prefix of the records made |
| Regions.BatchesSticky | src/benchmark/operation.cc:633-636 | after a failed flush nothing further happens |
| Regions.BatchesShape | src/benchmark/operation.cc:632 | while the arrangement runs, every batch written is full and was written successfully and fewer than 256 records are pending; once it failed, nothing is pending and the last batch is the failed one |
| Regions.BatchesResult | src/benchmark/operation.cc:616-648 | a whole arrangement leaves nothing pending and writes a prefix of the records in batches of 1 to 256, all but the last full; it succeeds exactly when all `n` records were written with every write successful, and after a failure the last batch is the failed one |
| Regions.BatchesFinish | src/benchmark/operation.cc:623-647 | where the loop stops with nothing pending, after all records or after a failed write, that is the whole arrangement |
| Regions.BatchedKeep | src/benchmark/operation.cc:629-632 | a record that does not complete a batch joins the pending batch |
| Regions.BatchedFlush | src/benchmark/operation.cc:632-637 | a record that completes a batch is written with it, and the pending batch is cleared |
| Regions.BatchedFail | src/benchmark/operation.cc:633-635 | a failed flush ends the arrangement with the batch shape kept |
| Regions.BatchedDone | src/benchmark/operation.cc:643-647 | after the last record the arrangement has succeeded |
| Regions.BatchesStepContent | src/benchmark/operation.cc:629-637 | one loop step keeps the written and pending records equal to the records made |
| Regions.CursorKeys | src/benchmark/operation.cc:658-660 | `n` cursor reads give `n` keys |
| Regions.CursorKeysSplit | src/benchmark/operation.cc:650-663 | two reads in a row are one longer read: the cursor just moves on |
| Regions.CursorVisitsEveryKey | src/benchmark/operation.cc:650-663 | |keys| reads in a row visit every key of the region |
| Regions.ModStep | src/benchmark/operation.cc:632 | `(i + 1) % size == 0` exactly when `i` is the last position of a batch |
| Regions.ModRotate | src/benchmark/operation.cc:654 | from any cursor value, every key index is reached after fewer than |keys| reads |
| Regions.CursorSlot | src/benchmark/operation.cc:654 | a sequential read's slot exists exactly when the key list is non-empty, and then lies inside it |
| Regions.AsWrittenEmptyArrange | src/benchmark/operation.cc:623-647 | with `arrange_kv_num` 0 the arrangement succeeds with no key recorded, and the read slot modulo the empty key list does not exist |
| Regions.ValidArrangeHasKeys | src/benchmark/operation.cc:623-647 | with at least one record, a successful arrangement records one key per record and every read slot exists |
| Regions.KvBatchGet | src/benchmark/operation.cc:273-288 | the read bytes are summed over the returned pairs; no write bytes |
| Regions.KeysOfAppend | src/benchmark/operation.cc:630 | recording one more pair appends its key |
| Regions.RegionEntry.constructor | src/benchmark/operation.cc:201-202 | a new region has its prefix, counter 0, no keys and cursor 0 |
| Regions.RegionEntry.KvPut | src/benchmark/operation.cc:199-224 | one pair; the counter advances by one even for a random key; the write bytes are the pair's size |
| Regions.RegionEntry.NextRecord | src/benchmark/operation.cc:234-245 | one record is built, and the counter advances only when a sequential key takes it |
| Regions.RegionEntry.GenerateBatch | src/benchmark/operation.cc:233-247 | the batch is the generator's `n` records, the bytes are its size, and the counter advances by `n` unless keys are random and do not take it |
| Regions.RegionEntry.KvBatchPut | src/benchmark/operation.cc:226-256 | `batch_size` pairs; the counter advances by `batch_size` in sequential mode and not at all in random mode |
| Regions.RegionEntry.Fill | src/benchmark/operation.cc:608-614 | a single put when the batch size is 1, a batch put otherwise |
| Regions.RegionEntry.Arrange | src/benchmark/operation.cc:616-751 | `ReadOperation::Arrange` (616-648) and `TxnReadOperation::Arrange` (716-751): the batches written are the specification's batching of the records, the counter advances by the records made, the failed batch included, and the key list grows by their keys; a transactional batch's whole transaction is one flush status |
| Regions.RegionEntry.ArrangeLoop | src/benchmark/operation.cc:623-643 | the loop stops after `i` records, all made in order; it stops early only on a failed flush |
| Regions.RegionEntry.ArrangeNext | src/benchmark/operation.cc:624-642 | one iteration makes the next record, records its key and flushes at a multiple of 256 or at the end |
| Regions.RegionEntry.NextKeys | src/benchmark/operation.cc:658-660 | `n` cursor reads give the rotation from the old cursor, which has moved on by `n` |
| Regions.RegionEntry.ReadSeq | src/benchmark/operation.cc:650-663 | one Get or one BatchGet of the keys under the cursor; the read bytes are the returned value's size (`KvGet`, lines 258-271) or the returned pairs' size, and no write bytes |
| Regions.RegionEntry.TxnReadSeq | src/benchmark/operation.cc:753-766 | the keys under the cursor read in one transaction |
| Regions.TxnRegionBatches | src/benchmark/operation.cc:353-370 | each region in turn gives `perRegion` pairs from its own counter, and every counter advances by `perRegion`, even for random keys |
| Regions.FillTxn | src/benchmark/operation.cc:703-714 | a multi-region fill puts the regions' pairs in region order through one transaction |
| Regions.TxnReadSeqRegions | src/benchmark/operation.cc:768-793 | the key (or batch) under each region's cursor, read in one transaction, with each cursor moved on |
| BulkLoad.QuotaSumPrefix | src/benchmark/operation.cc:998-1001 | the first `k` quotas sum to k × (n / W) plus the remainder once |
| BulkLoad.QuotasCoverTotal | src/benchmark/operation.cc:992-1001 | the quotas of all workers add up to `arrange_kv_num` |
| BulkLoad.AppendCall | src/benchmark/operation.cc:1014-1020 | a successful put adds its ids to the count; a failed one adds its size to the failure count |
| BulkLoad.RecordCall | src/benchmark/operation.cc:1012-1018 | one more put that follows the script and resends the failed batch keeps the worker's call invariants |
| BulkLoad.Ids | src/benchmark/operation.cc:1009 | the generator's first `n` ids |
| BulkLoad.IdsPush | src/benchmark/operation.cc:1009 | asking the generator once more extends the ids in order |
| BulkLoad.AutoWorker | src/benchmark/operation.cc:1006-1026 | the puts follow the script, each failed put is resent unchanged, batches are at most `batch_size`, the count is the generated ids put so far and the failure count their failed sizes; a finished worker has put exactly its quota |
| BulkLoad.AutoNext | src/benchmark/operation.cc:1007-1025 | one loop body keeps the worker invariant and either advances `i` or makes one more put |
| BulkLoad.AutoPut | src/benchmark/operation.cc:1012-1022 | a successful put advances to the next record with an empty batch; a failed one keeps `i` and the batch for the retry |
| BulkLoad.ManualWorker | src/benchmark/operation.cc:1072-1097 | worker `t` puts the batches of rounds t, t+W, … in order; a failed batch is resent unchanged; the batch number advances only after a success; the worker ends exactly at the end of the data |
| BulkLoad.ManualNext | src/benchmark/operation.cc:1073-1096 | one loop body fetches unless retrying, puts a non-empty batch and stops at the end of the data |
| BulkLoad.ManualPutFailed | src/benchmark/operation.cc:1082-1086 | a failed put keeps the round and marks the retry |
| BulkLoad.ManualPutOk | src/benchmark/operation.cc:1088-1091 | a successful put adds the round's ids and moves to the next round |
| BulkLoad.MulSucc | src/benchmark/operation.cc:1090 | one more round moves the batch number by W |
| BulkLoad.IsMonotoneIncreasing | src/benchmark/operation.cc:502-513 | true exactly when every id is larger than the one before it, the first larger than 0 |
| BulkLoad.StepwiseIncreasing | src/benchmark/operation.cc:502-513 | rising step by step from 0 is the same as all ids positive and strictly increasing pairwise |
| BulkLoad.IncreasingBetween | src/benchmark/operation.cc:505 | in a rising list every earlier id is smaller than every later one |
| BulkLoad.BatchOwner | src/benchmark/operation.cc:1072-1090 | batch number t + W·j belongs to worker t and round j |
| BulkLoad.WorkersDisjoint | src/benchmark/operation.cc:1067-1090 | no batch number is requested by two workers or in two rounds |
| Search.RandomVectorId | src/benchmark/operation.cc:1178 | a random filter id lies in 1 .. 10^7 |
| Search.RandomIds | src/benchmark/operation.cc:1177-1178 | the filter holds `filter_vector_id_num` ids |
| Search.RandomIdsInRange | src/benchmark/operation.cc:1176-1182 | every random filter id lies in 1 .. 10^7 |
| Search.AutoSearchParamSpec | src/benchmark/operation.cc:1143-1182 | range or top-k search from the toggle, the resolved filter type and source, and random vector ids exactly for a vector id filter |
| Search.TestEntryIndex | src/benchmark/operation.cc:1275 | the selected test entry exists |
| Search.ExtraParamsSpec | src/benchmark/operation.cc:1232-1238 | nprobe exactly for the IVF indexes, ef_search exactly for HNSW, nothing else |
| Search.ManualSearchParamSpec | src/benchmark/operation.cc:1225-1316 | always top-k with the resolved filter type and source and the index-type parameter; the beam width only for DiskANN; the filter json is entry 0's exactly when the coprocessor is on; vector ids are set exactly when the source is VECTOR_ID and the selected entry has ids, and are then that entry's ids, sorted, negated by the flag |
| Search.QueryFor | src/benchmark/operation.cc:1276-1283 | the query keeps the entry's id and vector, and the whole entry is sent when a filter is set |
| Search.BatchEntryIndices | src/benchmark/operation.cc:1295-1308 | a batch of `batch_size` entries from the selected one, round-robin |
| Search.BatchEntryIndicesSpec | src/benchmark/operation.cc:1295-1308 | starts at the selected entry, every index is an entry, and no entry repeats when the batch is no larger than the entries |
| Search.ModDistinct | src/benchmark/operation.cc:1297 | numbers less than `n` apart have different remainders |
| Search.EntriesInTurn | src/benchmark/operation.cc:1264-1275 | any `n` consecutive offsets select every test entry |
| Search.AsWrittenBatchEmpty | src/benchmark/operation.cc:1296 | as written, offset 5 with batch size 4 queries no entry where four were meant |
| Search.Hits | src/benchmark/operation.cc:1197-1202 | there are no more hits than returned ids |
| Search.HitsExtremes | src/benchmark/operation.cc:1197-1202 | every id is a hit exactly when all are neighbours; none is a hit exactly when none is |
| Search.HitsDistinct | src/benchmark/operation.cc:1197-1202 | without repeated ids the hits are the neighbours found |
| Search.SubsetCard | src/benchmark/operation.cc:1199 | a subset is no larger, a proper subset smaller |
| Search.RecallBounds | src/benchmark/operation.cc:1195-1205 | the recall is at most 10000, and 10000 exactly when every neighbour was found |
| Search.RecallNoHit | src/benchmark/operation.cc:1195-1205 | an answer with no true neighbour has recall 0 |
| Search.MulMono | src/benchmark/operation.cc:1204 | multiplication by a non-negative number is monotone |
| Search.RecallScale | src/benchmark/operation.cc:1204 | h × 10000 / n is at most 10000 for h ≤ n, and 10000 only for h = n |
| Search.RecallWrap | src/benchmark/operation.cc:1197-1204 | the 32-bit recall agrees below the wrap; with 429497 neighbours all found it is 0 instead of 10000 |
| Search.Recalls | src/benchmark/operation.cc:1318-1333 | no recalls when the search failed; otherwise one per queried entry, its recall when an answer came back and 0 beyond the answers |
| Search.RecallsBounded | src/benchmark/operation.cc:1324-1333 | every recall of an answer without repeated ids is at most 10000 |
| DiskAnn.RemoveFirstMultiset | src/benchmark/operation.cc:1428-1431 | erasing the found region takes one copy of it off the list, and nothing when it is absent |
| DiskAnn.RemoveFirstAt | src/benchmark/operation.cc:1428-1431 | erasing at the first match removes exactly that position; no match leaves the list |
| DiskAnn.Erase | src/benchmark/operation.cc:1428-1431 | `find` then `erase` removes the first occurrence |
| DiskAnn.PollStepAborts | src/benchmark/operation.cc:1417-1426 | a poll aborts exactly when one of its reports is a failed state |
| DiskAnn.PollStepLeaves | src/benchmark/operation.cc:1417-1433 | otherwise the outstanding regions left are those listed minus those reported done, as multisets |
| DiskAnn.PollStepSticky | src/benchmark/operation.cc:1422-1425 | once a failed state was read, the poll aborts whatever follows |
| DiskAnn.ApplyReports | src/benchmark/operation.cc:1417-1433 | the report loop returns false exactly on a failed state, and otherwise leaves the outstanding list the poll step gives |
| DiskAnn.Wait | src/benchmark/operation.cc:1409-1442 | a wait uses no more polls than it is given |
| DiskAnn.WaitReady | src/benchmark/operation.cc:1409-1442 | a phase is ready only when every listed region was reported done, as often as it is listed |
| DiskAnn.WaitLeaves | src/benchmark/operation.cc:1409-1437 | the regions still outstanding are always among those listed |
| DiskAnn.WaitEnds | src/benchmark/operation.cc:1409-1442 | an abort comes from the last poll used, a failed call or a failed region; a wait still waiting has used every poll with regions left |
| DiskAnn.WaitPhase | src/benchmark/operation.cc:1406-1442 | the polling loop ends as the wait specification says |
| DiskAnn.RegionIds | src/benchmark/operation.cc:1388-1391 | one region id per reported region |
| DiskAnn.WaitReadyEmpty | src/benchmark/operation.cc:1435-1437 | a ready phase has no region outstanding |
| DiskAnn.PrepareForDiskAnn | src/benchmark/operation.cc:1339-1500 | the step sequence ends as the preparation specification says, and the load call is made exactly once the build wait has emptied the outstanding list |
| DiskAnn.PreparedMeansBuiltAndLoaded | src/benchmark/operation.cc:1405-1493 | a successful preparation had every region reported built, then every region reported loaded |
| DiskAnn.CoveredByDone | src/benchmark/operation.cc:1435 | what is left after the done regions is covered by later reports |
| DiskAnn.PrepareGate.constructor | src/benchmark/operation.cc:1209 | the gate starts unprepared |
| DiskAnn.PrepareGate.BeforeSearch | src/benchmark/operation.cc:1208-1220 | the preparation runs before a DiskANN search only until it has succeeded; a failed preparation stops the search; the flag is set exactly by a success |
| Router.FloorKey | src/sdk/vector/vector_index.h:85-86 | the greatest start key at or below the id, or none when no start key is that low |
| Router.VectorIndex.constructor | src/sdk/vector/vector_index.h:79-91 | the identity fields are fixed as given, the two maps describe the same partitions, and a new index is stale |
| Router.VectorIndex.MarkStale | src/sdk/vector/vector_index.h:73 | the index is stale afterwards; the partition maps are unchanged |
| Router.VectorIndex.UnMarkStale | src/sdk/vector/vector_index.h:75 | the index is not stale afterwards; the partition maps are unchanged |
| Router.VectorIndex.GetPartitionId | src/sdk/vector/vector_index.h:48 | the partition of the greatest start key at or below the id; a partition exactly when such a start key exists; its range starts at or below the id |
| Router.VectorIndex.GetPartitionRange | src/sdk/vector/vector_index.h:52-53 | for a partition of the index, a range starting at a start key routed to that partition |
| Router.VectorIndex.GetPartitionIds | src/sdk/vector/vector_index.h:50 | every partition id, each once, and nothing else |
| Router.RangeStartRoutesBack | src/sdk/vector/vector_index.h:48-53 | routing a partition's start key leads back to that partition |
| Router.SamePartitionBetweenStarts | src/sdk/vector/vector_index.h:86 | two ids with no start key between them go to the same partition |
| Router.SameFloorBetween | src/sdk/vector/vector_index.h:86 | the greatest start key is the same for two ids with no start key between them |
| Router.RoutedToOwner | src/sdk/vector/vector_index.h:48 | an id goes to the partition of the last start key at or below it |

## Left out

- **Threads:** the worker threads, the `std::atomic` counters, `stop_count`, the joins and the sleeps are left out. One worker is modelled alone and in sequence, so interleavings and the totals across workers are not captured.
- **The DiskANN gate lock:** the double-checked lock around the gate is left out. The gate is a once-flag on one thread.
- **Remote calls:** RawKV, Transaction, VectorClient and Client calls are answer parameters. Their behaviour lives outside this repository.
- **Waits that run out:** a wait or worker whose script of answers runs out ends as still waiting or stalled. The source would go on polling or retrying forever.
- **Randomness:** `GenRandomString`, `GenerateRealRandomInteger`, the vector generators and the float vectors are parameters. Vectors are sequences of integers. The range-search radius and the result distances are floating point and are not modelled.
- **Timing and output:** elapsed times, timestamps, `beautiful_display_time`, progress output, logging and `exit(-1)` are left out. An exit is a `false` outcome.
- **Flag validators:** the gflags definitions and validators are left out. The flags are an immutable record.
- **Random reads:** `ReadRandomOperation` and `TxnReadRandomOperation` are left out, because every key index comes from the random generator. Their batched raw path takes the index modulo an empty, shadowing vector, and that is also not modelled.
- **Vector byte counts:** `VectorPut`, `VectorSearch` and `VectorBatchQuery` are not modelled as separate operations. Their byte counts use `vector.Size()`, whose definition is not part of this model. Their remote calls are answer parameters of the workers and of the recall computation.
- **Operations outside the modelled core:** `VectorFillSeqOperation`, `VectorFillRandomOperation`, `VectorQueryOperation`, `VectorSearchOperation::Arrange`, `IsSupportBenchmarkType`, `GetSupportBenchmarkType` and `NewOperation` are left out.
- **GenId:** `VectorIndexEntry::GenId` is not part of this model. The generated ids are a parameter.
- **vector_param.cc:** `src/sdk/vector/vector_param.cc` (`ToString` formatting) is not part of this model.
- **Unshown parts of VectorIndex:** `VectorIndex`'s constructor body, `GetVectorIndexType`, the scalar schema, `GetIndexDefWithId`, `ExistRegion` and `ToString` are left out, because their code is not shown. The constructor takes the partition ranges directly.
- Router.VectorIndex.GetPartitionId: its body is not shown. It is modelled as the greatest start key at or below the id on the ordered map, and it returns `None` where no start key is that low rather than failing.
- Router.VectorIndex.GetPartitionIds: the order of the ids is not stated. The map iteration order is ascending by partition id.
- Router.Range: only the start key of a range is tied to the start-key map. End keys, and ranges being contiguous and disjoint, are not stated.
- Keys.GenSeqString: a negative width, which fmt rejects by throwing, is modelled as no padding.
- BulkLoad.WorkerQuota: requires at least one worker. The source divides by the concurrency flag.
- Regions.TxnRegionBatches: the regions must be distinct objects. A region listed twice, an aliasing case, is not modelled.
- Regions.RegionEntry.NextKeys: `read_index` and the counters are unbounded integers. Their 64-bit wrap is not modelled.
- BulkLoad.AutoWorker: the success counter `count` is a `std::atomic<uint32_t>` in the source; the model counts with an unbounded `nat`, so its 32-bit wrap is not modelled.
- BulkLoad.ManualWorker: the same unbounded success counter; the 32-bit wrap of `count` is not modelled.
- Search.Recalls: requires every test entry that got an answer to have at least one neighbour; the source divides by `neighbors.size()` without checking (operation.cc line 1204). Each recall is the unbounded `CalculateRecallRate`, not the 32-bit product that wraps (see Findings, `Search.RecallWrap`).
- Regions.RegionEntry.NextKeys: requires a non-empty key list. With `arrange_kv_num` 0 the source reads modulo an empty list, a division by zero (see Findings), which the model does not run.
- Regions.RegionEntry.ReadSeq: requires a non-empty key list, for the same empty-arrangement case (see Findings).
- Regions.RegionEntry.TxnReadSeq: requires a non-empty key list, for the same empty-arrangement case (see Findings).
- Regions.TxnReadSeqRegions: requires every region's key list to be non-empty, for the same empty-arrangement case (see Findings).
- Regions.RegionEntry.Arrange: in the transactional arrangement (operation.cc lines 716-751) each flush is a whole `KvTxnBatchPut` transaction: begin, BatchPut, PreCommit, Commit and delete. The model takes its result as one answer parameter, `flushStatus(k)`, so the protocol inside it and the fatal exit on a bad isolation level are not modelled on this path. `Txn.KvTxnBatchPut` models that transaction on its own.
- Search.BatchEntryIndices: the model uses the corrected multi-query loop (see Findings). The query operation's loop at the same shape (operation.cc line 1544) is left out with `VectorQueryOperation`.

## Findings

| source | as written | input that shows it | evidently intended | confidence | as-written member | corrected member |
|---|---|---|---|---|---|---|
| src/benchmark/operation.cc:185 | `GenSeqString(int num, …)` receives the `size_t` counter narrowed to `int` | counters 0 and 2^32 both give "0000000000" at width 10 | distinct counter values give distinct keys | not executed | Keys.AsWrittenCounterCollision | Keys.SeqKeyProperties |
| src/benchmark/operation.cc:1195-1205 | `hit_count * 10000` is computed in `uint32_t` and wraps | 429497 neighbours, all returned: recall 0 | recall 10000 (all found) | not executed | Search.RecallWrap | Search.RecallBounds |
| src/benchmark/operation.cc:654 | `arrange_kv_num` has no validator; with 0 the arrangement succeeds with no key, and the sequential reads (also lines 659, 757, 762, 773, 785) take `read_index % keys.size()` | `arrange_kv_num` 0, then any sequential read: modulo zero | at least one arranged key before reading | not executed | Regions.AsWrittenEmptyArrange | Regions.ValidArrangeHasKeys |
| src/benchmark/operation.cc:1296 | the multi-query loop runs `i` from `offset` up to `batch_size` | offset 5, batch size 4, 100 entries: no entry is queried | `batch_size` entries from the selected one, round-robin | not executed | Search.AsWrittenBatchEmpty | Search.BatchEntryIndicesSpec |
