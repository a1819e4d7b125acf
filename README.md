# StarRocks scan paths: tablet scanner, ODPS split scanner, engine types

This project models three pieces of StarRocks in Dafny and proves properties about them.

- **The vectorized tablet scanner** (`tablet_scanner.dfy`, module `TabletScanner`). It is the
  per-tablet worker of the OLAP scan node. `init` resolves the materialized slots of the scan
  tuple to field indices of the tablet schema, sorts them and maps them to global dictionaries.
  It splits the parsed column predicates into pushed-down and residual ones and translates the
  scan key ranges. It lays out the reader columns (all key columns, then the non-key scanner
  columns, unless aggregation is skipped), then creates and prepares the tablet reader.
  `get_chunk` pulls chunks from the reader until one keeps a row after the residual predicates
  and the conjuncts. `open`, `close` and the two counter updates are modelled as well. The class
  `TabletScanner` has the scanner's fields. The tablet reader is a class driven by a
  `ReaderScript`: the statuses it returns and the batches it yields.
- **The ODPS split scanner's buffering** (`odps_split_scanner.dfy`, module `OdpsSplitScanner`).
  `getNext` pulls Arrow batches into a FIFO queue while fewer than `fetchSize` rows are cached.
  It then hands at least `min(size, fetchSize)` rows, possibly more than `fetchSize`, to the
  off-heap writer from the front of the queue. The class `SplitScanner` keeps the queue (row counts of the batches) and the counter
  `size`. The functions `Fetch` and `Drain` state what its two loops compute. The constructor's
  field split and column alignment are modelled too.
- **The engine types of the front end** (`engine_type.dfy`, module `EngineType`). It models the
  ten engines, the default engine and which engines accept NOT NULL columns. The name lookup
  upper-cases its input and fails on an unknown name.

`sequences.dfy` (module `Sequences`) holds the optional value that both scanner models use, and
the order-preserving filter and the ascending sort that the tablet scanner model uses. The ODPS
model keeps its own row-count sum and minimum.

Parameters stand in for what comes from outside the modelled code:

- the tablet lookup (an optional schema);
- whether the predicate parser can push a predicate down;
- how a predicate or a conjunct evaluates on a row;
- the runtime global dictionaries;
- the reader's statuses and batches;
- the cancellation flag;
- the ODPS table's column map and the type conversion;
- the ODPS reader's batches, given by their row counts.

## Model

| member | source | states |
|---|---|---|
| EngineType.ValueOf | fe/fe-core/src/main/java/com/starrocks/sql/common/EngineType.java:21-31 | succeeds exactly for the ten declared constant names and gives back the constant of that name; otherwise the error carries the name |
| EngineType.ValueOfName | fe/fe-core/src/main/java/com/starrocks/sql/common/EngineType.java:21-31 | looking a constant up by its own name gives that constant, for every constant |
| EngineType.NameSupportsNotNull | fe/fe-core/src/main/java/com/starrocks/sql/common/EngineType.java:33-37 | exactly OLAP, MYSQL and BROKER are in the NOT NULL set; the other seven constants are not |
| EngineType.DefaultEngine | fe/fe-core/src/main/java/com/starrocks/sql/common/EngineType.java:39-41 | the default engine is the one named OLAP, and it accepts NOT NULL columns |
| EngineType.ToUpperCase | fe/fe-core/src/main/java/com/starrocks/sql/common/EngineType.java:44 | same length; each character upper-cased on its own |
| EngineType.ToUpperCaseIdempotent | fe/fe-core/src/main/java/com/starrocks/sql/common/EngineType.java:44 | upper-casing twice is the same as upper-casing once |
| EngineType.SupportNotNullColumnTrue | fe/fe-core/src/main/java/com/starrocks/sql/common/EngineType.java:43-45 | the answer is true exactly when the upper-cased name is OLAP, MYSQL or BROKER |
| EngineType.SupportNotNullColumnFalse | fe/fe-core/src/main/java/com/starrocks/sql/common/EngineType.java:43-45 | the answer is false exactly when the upper-cased name is one of the other seven constants |
| EngineType.SupportNotNullColumn | fe/fe-core/src/main/java/com/starrocks/sql/common/EngineType.java:43-45 | the answer is a boolean exactly when the upper-cased name is one of the constants; otherwise the error names the upper-cased string |
| EngineType.SupportNotNullColumnUnknown | fe/fe-core/src/main/java/com/starrocks/sql/common/EngineType.java:44 | the lookup fails exactly when the upper-cased name is no constant, and the error names the upper-cased string |
| EngineType.SupportNotNullColumnCaseInsensitive | fe/fe-core/src/main/java/com/starrocks/sql/common/EngineType.java:44 | a name and its upper-case form get the same answer |
| EngineType.SupportNotNullColumnAccepts | fe/fe-core/src/main/java/com/starrocks/sql/common/EngineType.java:43-45 | "olap" and "Broker" are accepted |
| EngineType.SupportNotNullColumnRejects | fe/fe-core/src/main/java/com/starrocks/sql/common/EngineType.java:43-45 | "hive" is refused and "kudu" is an unknown engine |
| OdpsSplitScanner.JavaSplit | java-extensions/odps-reader/src/main/java/com/starrocks/odps/reader/OdpsSplitScanner.java:65 | no field contains a comma; a parameter without a comma is its own single field; with a comma, the last field is not empty |
| OdpsSplitScanner.JoinSplitAll | java-extensions/odps-reader/src/main/java/com/starrocks/odps/reader/OdpsSplitScanner.java:65 | joining all the pieces with commas gives the parameter back |
| OdpsSplitScanner.JavaSplitPieces | java-extensions/odps-reader/src/main/java/com/starrocks/odps/reader/OdpsSplitScanner.java:65 | the required fields are a prefix of all the pieces; only empty pieces are dropped, and only from the end; with a comma, every trailing empty piece is dropped |
| OdpsSplitScanner.JavaSplitTwoFields | java-extensions/odps-reader/src/main/java/com/starrocks/odps/reader/OdpsSplitScanner.java:65 | "a,b" gives the two fields "a" and "b" |
| OdpsSplitScanner.JavaSplitTrailingEmpty | java-extensions/odps-reader/src/main/java/com/starrocks/odps/reader/OdpsSplitScanner.java:65 | "a,," gives ["a"]; the empty string gives one empty field |
| OdpsSplitScanner.AlignRequiredColumns | java-extensions/odps-reader/src/main/java/com/starrocks/odps/reader/OdpsSplitScanner.java:78-83 | both arrays are as long as the field list; at each index, the table column of that field's name (none when the table lacks it) and its converted type |
| OdpsSplitScanner.SplitScanner.constructor | java-extensions/odps-reader/src/main/java/com/starrocks/odps/reader/OdpsSplitScanner.java:61-83 | fields from the split parameter, aligned columns and types, an empty queue with a zero counter, and the buffer invariant |
| OdpsSplitScanner.Fetch | java-extensions/odps-reader/src/main/java/com/starrocks/odps/reader/OdpsSplitScanner.java:129-140 | ends with the reader exhausted or at least `fetchSize` rows counted; the queue followed by the unread batches stays the same sequence |
| OdpsSplitScanner.FetchPulls | java-extensions/odps-reader/src/main/java/com/starrocks/odps/reader/OdpsSplitScanner.java:129-140 | the fetch moves a prefix of the unread batches to the back of the queue and adds their rows to the counter; each was pulled while fewer than `fetchSize` rows were counted |
| OdpsSplitScanner.SplitScanner.FetchBatches | java-extensions/odps-reader/src/main/java/com/starrocks/odps/reader/OdpsSplitScanner.java:129-140 | the loop leaves the queue, counter and reader in the state `Fetch` gives |
| OdpsSplitScanner.Drain | java-extensions/odps-reader/src/main/java/com/starrocks/odps/reader/OdpsSplitScanner.java:142-153 | the final row count is the start plus everything emitted, and at least `shouldRead`; nothing is emitted when `shouldRead` is already reached |
| OdpsSplitScanner.DrainFifo | java-extensions/odps-reader/src/main/java/com/starrocks/odps/reader/OdpsSplitScanner.java:142-153 | the emits are whole batches from the front of the queue, in order, each no larger than `shouldRead` and each emitted while the running total was below `shouldRead`; or those followed by one partial read of `shouldRead` rows of a larger batch, which stays at the front |
| OdpsSplitScanner.DrainDefined | java-extensions/odps-reader/src/main/java/com/starrocks/odps/reader/OdpsSplitScanner.java:142-143 | the drain never takes the first element of an empty queue when at least `shouldRead` rows are queued |
| OdpsSplitScanner.SplitScanner.DrainQueue | java-extensions/odps-reader/src/main/java/com/starrocks/odps/reader/OdpsSplitScanner.java:141-153 | the loop's row count, emits and remaining queue are those of `Drain` |
| OdpsSplitScanner.FetchKeepsInvariant | java-extensions/odps-reader/src/main/java/com/starrocks/odps/reader/OdpsSplitScanner.java:129-140 | the fetch loop preserves the buffer invariant |
| OdpsSplitScanner.DrainKeepsInvariant | java-extensions/odps-reader/src/main/java/com/starrocks/odps/reader/OdpsSplitScanner.java:141-154 | after the fetch, the drain succeeds, takes no more rows than are counted, and the counter minus the rows taken satisfies the invariant again |
| OdpsSplitScanner.GetNextKeepsInvariant | java-extensions/odps-reader/src/main/java/com/starrocks/odps/reader/OdpsSplitScanner.java:124-156 | a whole `getNext` keeps the invariant: the counter stays between 0 and the queued rows, and a front batch read only in part is larger than any later read of it |
| OdpsSplitScanner.SplitScanner.GetNext | java-extensions/odps-reader/src/main/java/com/starrocks/odps/reader/OdpsSplitScanner.java:124-156 | the result, the emits, the queue, the counter and the reader's remaining batches are those of `Fetch` then `Drain`, and the invariant holds again |
| OdpsSplitScanner.ExhaustedReturnsZero | java-extensions/odps-reader/src/main/java/com/starrocks/odps/reader/OdpsSplitScanner.java:124-156 | with the reader exhausted and a zero counter, `getNext` returns 0 and leaves the queue alone |
| OdpsSplitScanner.DrainOvershootsFetchSize | java-extensions/odps-reader/src/main/java/com/starrocks/odps/reader/OdpsSplitScanner.java:141-154 | batches of 1 and 10 rows with fetch size 8: one call hands over 9 rows |
| OdpsSplitScanner.StrandedBatchStays | java-extensions/odps-reader/src/main/java/com/starrocks/odps/reader/OdpsSplitScanner.java:142-151 | once the counter is below the queued rows, every call reads part of the same front batch and never removes it |
| OdpsSplitScanner.DrainStrandsBatch | java-extensions/odps-reader/src/main/java/com/starrocks/odps/reader/OdpsSplitScanner.java:124-156 | a 10-row batch with fetch size 8 is read for 8 rows, then for 2, then the counter is 0 while the batch is still queued |
| OdpsSplitScanner.DrainIntended | java-extensions/odps-reader/src/main/java/com/starrocks/odps/reader/OdpsSplitScanner.java:141-154 | the corrected drain hands over exactly `shouldRead` rows, and the rows left queued are the rows counted |
| OdpsSplitScanner.DrainIntendedExact | java-extensions/odps-reader/src/main/java/com/starrocks/odps/reader/OdpsSplitScanner.java:141-154 | with the corrected drain each call returns exactly `min(size, fetchSize)` rows, never more than `fetchSize`, and the counter stays equal to the queued rows |
| OdpsSplitScanner.DrainIntendedSplitsBatch | java-extensions/odps-reader/src/main/java/com/starrocks/odps/reader/OdpsSplitScanner.java:141-154 | with the corrected drain the 10-row batch is read for 8 rows, then its remaining 2, and then leaves the queue |
| TabletScanner.FieldIndexFound | be/src/exec/vectorized/tablet_scanner.cpp:174-175 | a resolved field index names a column of that name; -1 exactly when no column has the name |
| TabletScanner.Resolve | be/src/exec/vectorized/tablet_scanner.cpp:170-183 | the resolved columns and the query slots stay equally long |
| TabletScanner.ResolveMaterialized | be/src/exec/vectorized/tablet_scanner.cpp:170-183 | no invalid name exactly when every materialized slot resolves; then the query slots are the materialized slots in order, each column the field index of its slot |
| TabletScanner.ResolveReportsFirstInvalid | be/src/exec/vectorized/tablet_scanner.cpp:174-180 | a reported invalid name is the name of the first materialized slot that does not resolve |
| TabletScanner.ResolveStopsAtFailure | be/src/exec/vectorized/tablet_scanner.cpp:175-180 | after the first failure, later slots change nothing |
| TabletScanner.ReturnColumnsOk | be/src/exec/vectorized/tablet_scanner.cpp:169-191 | `_init_return_columns` succeeds exactly when every materialized slot resolves and some slot is materialized |
| TabletScanner.ScannerColumnsSorted | be/src/exec/vectorized/tablet_scanner.cpp:186 | on success the scanner columns are non-empty, ascending, a permutation of the resolved indices, and valid column indices |
| TabletScanner.TabletScanner.InitReturnColumns | be/src/exec/vectorized/tablet_scanner.cpp:169-191 | the status, scanner columns and query slots are those of `Resolve`; the scanner columns are `ScannerColumnsOf`, the resolved columns sorted on success |
| TabletScanner.ReturnColumnsStatus | be/src/exec/vectorized/tablet_scanner.cpp:175-189 | OK exactly when no materialized slot name failed to resolve and some column was resolved; every failure is an internal error |
| TabletScanner.ReaderColumns | be/src/exec/vectorized/tablet_scanner.cpp:150-161 | without skipped aggregation the reader columns start with the key columns 0, 1, ... in order; every reader column is a key column or a scanner column |
| TabletScanner.ReaderColumnsLayout | be/src/exec/vectorized/tablet_scanner.cpp:150-164 | the reader columns are ascending, contain every scanner column, and start with every key column when aggregation is not skipped |
| TabletScanner.TabletScanner.InitReaderColumns | be/src/exec/vectorized/tablet_scanner.cpp:150-161 | the reader columns are `ReaderColumns` |
| TabletScanner.ProjectionIsIdentity | be/src/exec/vectorized/tablet_scanner.cpp:39-44 | the reader and scanner column lists have equal length exactly when they are equal, so the reader serves as its own projection only when nothing is projected away |
| TabletScanner.PredicateSplit | be/src/exec/vectorized/tablet_scanner.cpp:124-134 | each parsed predicate goes to exactly one side: pushed ones can be pushed down, residual ones cannot, and together they are the parsed predicates |
| TabletScanner.TabletScanner.SplitPredicates | be/src/exec/vectorized/tablet_scanner.cpp:127-134 | the free pool is every parsed predicate, the pushed list those that can be pushed down and the residual list the others, in parsed order |
| TabletScanner.TranslateRanges | be/src/exec/vectorized/tablet_scanner.cpp:137-147 | the start and end key lists only grow, keep what they held, and grow by the same number of keys, at most one per range |
| TabletScanner.TranslateRangesKeys | be/src/exec/vectorized/tablet_scanner.cpp:137-147 | ranges with an unbounded begin are skipped; the others append their begin and end keys, so the two key lists stay equally long |
| TabletScanner.TranslateRangesLastWins | be/src/exec/vectorized/tablet_scanner.cpp:137-147 | the comparisons come from the last range not skipped; unset when every range is skipped |
| TabletScanner.TabletScanner.InitKeyRanges | be/src/exec/vectorized/tablet_scanner.cpp:137-147 | the key part of the reader parameters is `TranslateRanges` of the ranges |
| TabletScanner.TabletScanner.InitReaderParams | be/src/exec/vectorized/tablet_scanner.cpp:112-167 | the aggregation flags, pushed predicates and keys of the parameters, the residual predicates, the free pool and the reader columns |
| TabletScanner.GlobalDicts | be/src/exec/vectorized/tablet_scanner.cpp:194-213 | every dictionary in the map is one of the runtime global dictionaries |
| TabletScanner.GlobalDictsKeys | be/src/exec/vectorized/tablet_scanner.cpp:194-213 | the map has a key exactly for the field index of each materialized slot with a global dictionary |
| TabletScanner.GlobalDictsFirstWins | be/src/exec/vectorized/tablet_scanner.cpp:207 | a field index maps to the dictionary of the first slot that produced it |
| TabletScanner.TabletScanner.InitGlobalDicts | be/src/exec/vectorized/tablet_scanner.cpp:194-213 | the global dictionary map of the parameters is `GlobalDicts`, nothing else changes |
| TabletScanner.InitStatus | be/src/exec/vectorized/tablet_scanner.cpp:26-62 | `init` reports OK only when the tablet is found and the reader takes the encoded schema and prepares |
| TabletScanner.InitOk | be/src/exec/vectorized/tablet_scanner.cpp:26-62 | `init` succeeds exactly when the tablet is found, every materialized slot resolves, some slot is materialized, and the reader takes the encoded schema and prepares |
| TabletScanner.TabletScanner.Init | be/src/exec/vectorized/tablet_scanner.cpp:26-62 | the status is `InitStatus`; the configuration fields are copied; nothing is set up without a tablet; otherwise the columns, parameters, predicates and a fresh reader as each step leaves them |
| TabletScanner.TabletScanner.constructor | be/src/exec/vectorized/tablet_scanner.cpp:24 | a new scanner is unused, satisfies its invariant and has zero totals |
| TabletScanner.TabletScanner.Configure | be/src/exec/vectorized/tablet_scanner.cpp:26-32 | the aggregation flags, the conjuncts, the evaluators and the looked-up tablet are those the scan node passes |
| TabletScanner.TabletScanner.InitWithTablet | be/src/exec/vectorized/tablet_scanner.cpp:33-61 | with the tablet found, the status is `InitStatus` and every step leaves its part of the state set up; a reader, when created, is fresh and not yet opened |
| TabletScanner.TabletScanner.InitReader | be/src/exec/vectorized/tablet_scanner.cpp:34-61 | after the return columns succeed: the dictionaries, parameters, predicates and reader columns are set, a fresh reader is created, and the status is the encoded-schema error, else a prepare failure as an internal error, else OK |
| TabletScanner.TabletScanner.CreateReader | be/src/exec/vectorized/tablet_scanner.cpp:36-61 | a fresh reader over the reader columns, projected when the column lists differ in length; its chunks are named after the reader columns when the reader is its own projection and after the scanner columns otherwise; the encoded-schema error is returned as is, a prepare error as an internal error |
| TabletScanner.TabletScanner.Open | be/src/exec/vectorized/tablet_scanner.cpp:64-78 | the reader is opened on the first call only; a later call returns OK even when the first one failed; a failed open becomes an internal error |
| TabletScanner.TabletScanner.Close | be/src/exec/vectorized/tablet_scanner.cpp:80-93 | a second call changes nothing; the first closes the reader, flushes the counters once, drops the reader and the predicate pool and closes the conjuncts |
| TabletScanner.TabletScanner.UpdateCounter | be/src/exec/vectorized/tablet_scanner.cpp:261-322 | the reader's statistics are added to the totals exactly once |
| TabletScanner.TabletScanner.UpdateRealtimeCounter | be/src/exec/vectorized/tablet_scanner.cpp:251-259 | the reader's pending bytes and rows move into the totals, and the reader's counts become 0 |
| TabletScanner.Survivors | be/src/exec/vectorized/tablet_scanner.cpp:229-245 | no more rows survive than the batch had |
| TabletScanner.SurvivorsSubset | be/src/exec/vectorized/tablet_scanner.cpp:229-245 | the surviving rows are a sub-multiset of the batch's rows |
| TabletScanner.Chunk.FilterRows | be/src/exec/vectorized/tablet_scanner.cpp:229-245 | the chunk keeps, in order, exactly its rows that the condition accepts |
| TabletScanner.SurvivorsAreConjunction | be/src/exec/vectorized/tablet_scanner.cpp:229-245 | the two filtering steps keep exactly the rows that satisfy every residual predicate and every conjunct, in order |
| TabletScanner.Pull | be/src/exec/vectorized/tablet_scanner.cpp:215-249 | the loop consumes no more batches than the reader has |
| TabletScanner.PullOk | be/src/exec/vectorized/tablet_scanner.cpp:220-248 | an OK result is a non-empty chunk of rows that all pass the filters: the survivors of the last batch read, every earlier batch filtered to nothing |
| TabletScanner.PullOkLast | be/src/exec/vectorized/tablet_scanner.cpp:220-246 | an OK pull ends at a batch that keeps a row and hands back that batch's survivors |
| TabletScanner.PullOkSkipped | be/src/exec/vectorized/tablet_scanner.cpp:220-246 | every batch an OK pull consumed before its last was filtered to nothing |
| TabletScanner.PullStops | be/src/exec/vectorized/tablet_scanner.cpp:220-223 | a failed result is the reader's final status, after every batch was read and filtered to nothing |
| TabletScanner.SlotIndexMap | be/src/exec/vectorized/tablet_scanner.cpp:224-227 | every query slot id is bound, to a position among the chunk's field names or to -1 |
| TabletScanner.SlotIndexMapSpec | be/src/exec/vectorized/tablet_scanner.cpp:224-227 | every query slot id is bound, to the position of its own column name unless a later slot has the same id |
| TabletScanner.QuerySlotsFindTheirColumns | be/src/exec/vectorized/tablet_scanner.cpp:224-227 | after a successful `_init_return_columns`, every query slot finds a column of its own name among the scanner columns that name a projection's chunks |
| TabletScanner.QuerySlotsFindOutputColumns | be/src/exec/vectorized/tablet_scanner.cpp:39-44 | in a schema with its key columns first, every query slot finds a column of its own name in the chunks handed out, whether the reader is its own projection or a projection is built |
| TabletScanner.TabletScanner.BindSlots | be/src/exec/vectorized/tablet_scanner.cpp:224-227 | the chunk's slot map gains `SlotIndexMap` of the query slots over the chunk's field names |
| TabletScanner.TabletScanner.ReadFiltered | be/src/exec/vectorized/tablet_scanner.cpp:221-245 | one pass: the next batch filtered to its survivors, its slots bound and its statistics added; the final status with the chunk untouched when the reader is done |
| TabletScanner.TabletScanner.PullChunks | be/src/exec/vectorized/tablet_scanner.cpp:220-246 | the status, rows, batches consumed, slot bindings and statistics are those of `Pull` |
| TabletScanner.TabletScanner.GetChunk | be/src/exec/vectorized/tablet_scanner.cpp:215-249 | a cancelled call returns Cancelled and changes nothing; otherwise the outcome of `Pull`, and on success the statistics move into the totals |
| Sequences.SortSorted | be/src/exec/vectorized/tablet_scanner.cpp:186 | the sort of the scanner columns gives an ascending sequence |

## Left out

- The tablet lookup, including the scan-range fields it parses, is a parameter. The storage engine is not part of this model.
- The predicate parser, `get_column_predicates`, the predicate evaluation and `eval_conjuncts` are parameters. The selection buffer and the memory-tracker accounting around the filters are left out.
- Timers, runtime-profile counters, metrics and log messages are left out. `update_counter` is modelled only through the two totals it accumulates, `_compressed_bytes_read` and `_raw_rows_read`.
- `release_large_columns` in `close` is left out because it only releases memory.
- Reader parameters that are fixed or copied from configuration (reader type, profile, runtime state, page cache, chunk size) are left out.
- The projection iterator is folded into the reader. Its output is named after the reader columns when the column lists are equally long, and after the scanner columns otherwise. `projected` records whether a projection was built. A column index beyond the schema, which only a schema with more key columns than columns could give, is given the empty name.
- `Tablet::field_index` is modelled as the first column with that name, or -1. That code is not part of this model.
- The unbounded-key sentinel is written as the string "-oo". Its definition is not part of this model.
- The tablet reader is a finite script of batches that ends with a non-OK status (end of file or an error).
- TabletScanner.TabletScanner.Init: the conjunct cloning cannot fail here. The version number and the schema conversion are not modelled.
- TabletScanner.TabletScanner.Close: requires a reader, because the code calls `_prj_iter->close()` without a null check. A `close` after an `init` that failed before creating the reader would dereference a null pointer; whether the scan node ever does this is not part of this model.
- TabletScanner.ProjectionIsIdentity: assumes distinct scanner columns. With two slots on one column, equal lengths need not mean equal lists.
- TabletScanner.TabletScanner.SplitPredicates: builds the three lists in locals and stores them after the loop. The final state is the same.
- EngineType.ToUpperCase: upper-cases ASCII letters only. Java's locale-dependent Unicode case mapping is not modelled.
- The ODPS constructor's other parameters, the deserialization of the read session, the ODPS client, `open`, `close`, `toString` and the class-loader switch are left out. They are network and runtime plumbing.
- The exception wrapping in `getNext` is left out.
- `read` and `appendData` are recorded only as the number of rows `read` was asked to emit. Arrow batches are known only by their row counts.
- OdpsSplitScanner.SplitScanner.GetNext: `size` and the row counts are unbounded integers. Java `int` overflow is not modelled.
- The Thrift RPC helper and the ODPS scan node of the front end are not part of this model.

## Findings

| source | as written | input that shows it | evidently intended | confidence | as-written member | corrected member |
|---|---|---|---|---|---|---|
| java-extensions/odps-reader/src/main/java/com/starrocks/odps/reader/OdpsSplitScanner.java:141-154 | the drain compares each batch with `shouldRead`, not with the rows still missing (`shouldRead - numRows`), and a partial read adds `shouldRead` rows | batches of 1 and 10 rows queued, fetch size 8: 1 row, then 8 rows of the second batch, 9 rows in total from a writer sized for 8 | hand over exactly `min(size, fetchSize)` rows, taking only the missing rows from the front batch | medium, not executed | OdpsSplitScanner.DrainOvershootsFetchSize | OdpsSplitScanner.DrainIntendedExact |
| java-extensions/odps-reader/src/main/java/com/starrocks/odps/reader/OdpsSplitScanner.java:142-151 | a batch read only in part stays queued with its full row count, and `read` starts again at the batch's first row on every call | one batch of 10 rows, fetch size 8: calls read 8 rows, then 2 rows of the same batch, then 0 rows with the batch still queued | keep the unread rest of a partly read batch at the front and remove the batch once all its rows are handed over | medium, not executed | OdpsSplitScanner.DrainStrandsBatch | OdpsSplitScanner.DrainIntendedSplitsBatch |
