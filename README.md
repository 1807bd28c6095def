# Resharding oplog applier: a verified model

This project models the batch oplog applier used during resharding. The applier:
- reads a donor's change records (oplog entries) from an iterator, in batches of a fixed size;
- applies each batch to the resharded output collection and to the retryable-write session ledger (the config.transactions table);
- after every fully applied batch, stores the batch's last record as its progress (what `checkStoredProgress` reads).

The applier has two phases:
- `applyUntilCloneFinishedTs` applies whole batches. It stops after the first batch whose last record reaches the clone-finished timestamp, or when the iterator is exhausted.
- `applyUntilDone` applies whole batches until the iterator is exhausted.

Either phase fails with the first error it meets, and that error's own code:
- the iterator fails (`InternalError`);
- a record cannot be applied (`FailedToParse`);
- the task executor or the writer pool has been shut down (`ShutdownInProgress`).

The applier's implementation file is not part of this model. Its behaviour is taken from the unit-test suite `src/mongo/db/s/resharding/resharding_oplog_applier_test.cpp`: from the suite's iterator mock, its fixture helpers and the expectations of each test case.

Files (one module each):
- `common.dfy`: error codes, `Option`, `Result` and `Status`.
- `oplog.dfy`: timestamps, ordered lexicographically; operations; session info; records; the donor oplog id of a record.
- `oplog_iterator.dfy`: the test suite's iterator mock.
  - `Next` is `getNext` as a function.
  - `Drain` is what a consumer receives by calling `getNext` until it gets none or an error.
  - `OplogIteratorMock` is a class whose queue is popped in place.
- `txn_ledger.dfy`: the session ledger's rules. The "has this statement already executed?" query is `IsWriteAlreadyExecuted`, and the advance rule is `Advance`/`RecordWrite`.
- `crud_apply.dfy`: applying one record (its write, then its ledger update) and applying a run of records in order, stopping at the first that fails.
- `applier_spec.dfy`: the batch loop as functions and the properties proved about it.
  - `FillBatch` fills a batch.
  - `PhaseRound` is one round: the executor check, the fill, the writer-pool check, the apply and the progress commit.
  - `ApplyPhase` runs rounds until one ends the phase.
  - `CutOutcome` is an independent reference: it states the result of a phase with healthy collaborators directly from the batch cut `PhaseCut`.
- `applier.dfy`: the applier as a class.
  - It holds its collection, ledger and progress as fields.
  - It owns an iterator, a task executor and a writer pool.
  - Each method (`GetNextBatch`, `ApplyBatch`, the phase loop `RunBatches` and the two phase operations) is proved against the functions of `applier_spec.dfy`.
- `applier_tests.dfy`: every test case of the suite, as a method.
  - Each method builds the iterator, the executor, the writer pool and the applier, then runs the phases.
  - Its postcondition states what the test case asserts.
  - Each scenario's phases are first worked out round by round in small lemmas.

## Model

| member | source | states |
|---|---|---|
| OplogIterator.Next | src/mongo/db/s/resharding/resharding_oplog_applier_test.cpp:63-75 | getNext fails with InternalError exactly when the throw flag is set and one record is left; on an empty queue it returns none and leaves the queue empty; otherwise it returns the front record and the rest is the queue without it |
| OplogIterator.Drain | src/mongo/db/s/resharding/resharding_oplog_applier_test.cpp:63-83 | calling getNext until none or an error delivers every record in queue order without the throw flag; with it, every record but the last, in order, and then InternalError |
| OplogIterator.OplogIteratorMock.constructor | src/mongo/db/s/resharding/resharding_oplog_applier_test.cpp:60-61 | the mock starts with the given queue and the throw flag off |
| OplogIterator.OplogIteratorMock.GetNext | src/mongo/db/s/resharding/resharding_oplog_applier_test.cpp:63-75 | the in-place pop agrees with Next: on failure the queue is untouched, on success the queue becomes Next's rest; the flag never changes |
| OplogIterator.OplogIteratorMock.SetThrowWhenSingleItem | src/mongo/db/s/resharding/resharding_oplog_applier_test.cpp:77-83 | arms the flag and leaves the queue as it was |
| OplogIterator.OplogIteratorMock.HasMore | src/mongo/db/s/resharding/resharding_oplog_applier_test.cpp:85-87 | true exactly when the queue is non-empty |
| TxnLedger.CheckTxnNumber | src/mongo/db/s/resharding/resharding_oplog_applier_test.cpp:910-926 | beginning or continuing a transaction fails with TransactionTooOld exactly when the session has a higher recorded transaction number |
| TxnLedger.IsWriteAlreadyExecuted | src/mongo/db/s/resharding/resharding_oplog_applier_test.cpp:910-926 | fails with TransactionTooOld exactly when the number is too old; answers yes exactly when the session's current transaction is the one asked about and lists the statement; an unknown session answers no |
| TxnLedger.Advance | src/mongo/db/s/resharding/resharding_oplog_applier_test.cpp:876-908 | recording a write fails exactly for a too-old number; otherwise the statement then reports executed, statements already executed in that transaction stay executed, no other statement becomes executed, other sessions are untouched and the transaction number never decreases |
| TxnLedger.RecordWrite | src/mongo/db/s/resharding/resharding_oplog_applier_test.cpp:1160-1180 | the applier's ledger update: a too-old write leaves the ledger unchanged; any other write makes its statement report executed; other sessions are untouched and no session's number decreases |
| TxnLedger.StaleWriteKeepsEntry | src/mongo/db/s/resharding/resharding_oplog_applier_test.cpp:1166-1180 | after a write with a lower transaction number the ledger is unchanged, querying the stale number fails with TransactionTooOld and the recorded statements still report executed |
| TxnLedger.NewerTxnReplacesEntry | src/mongo/db/s/resharding/resharding_oplog_applier_test.cpp:1183-1228 | after a write with a higher transaction number only its statement reports executed in that transaction, and any older number is too old |
| TxnLedger.SameTxnAccumulates | src/mongo/db/s/resharding/resharding_oplog_applier_test.cpp:1230-1275 | after a write in the recorded transaction both the new statement and the earlier ones report executed, and nothing else does |
| CrudApply.ApplyOp | src/mongo/db/s/resharding/resharding_oplog_applier_test.cpp:211-265 | an operation applies exactly when it parses, failing with FailedToParse otherwise; it touches only its own `_id`; an insert stores its document, a delete removes it, a `$set` updates the field of an existing document |
| CrudApply.ApplyRecord | src/mongo/db/s/resharding/resharding_oplog_applier_test.cpp:1160-1166 | a record's write is applied whatever its session info; a failed write changes neither collection nor ledger; a record with session info then updates the ledger with RecordWrite |
| CrudApply.ApplyAll | src/mongo/db/s/resharding/resharding_oplog_applier_test.cpp:356-408 | applying a run of records succeeds exactly when every record parses, and otherwise fails with FailedToParse |
| CrudApply.ApplyAllAppend | src/mongo/db/s/resharding/resharding_oplog_applier_test.cpp:267-319 | applying two runs one after the other equals applying their concatenation, and a failing first run stops everything |
| CrudApply.ApplyAllStopsAtFirstFailure | src/mongo/db/s/resharding/resharding_oplog_applier_test.cpp:321-354 | when record k is the first that does not parse, exactly the records before it take effect and the result is FailedToParse |
| CrudApply.DocsIndependentOfLedger | src/mongo/db/s/resharding/resharding_oplog_applier_test.cpp:1160-1166 | the collection produced, and whether the run succeeds, do not depend on the ledger |
| CrudApply.LedgerTxnMonotone | src/mongo/db/s/resharding/resharding_oplog_applier_test.cpp:1166-1180 | applying records never removes a session entry or lowers its transaction number |
| CrudApply.NotExecutedUnlessCarried | src/mongo/db/s/resharding/resharding_oplog_applier_test.cpp:1004-1006 | a statement that did not report executed and that no applied record carries still does not report executed |
| ApplierSpec.FillBatch | src/mongo/db/s/resharding/resharding_oplog_applier_test.cpp:488-523 | a batch fill fails with InternalError exactly when the flag is set and the source holds between 1 and batchSize records, in which case the batch is lost and the last record stays in the source; otherwise the batch is the next min(batchSize, remaining) records and the source loses exactly those |
| ApplierSpec.PhaseRound | src/mongo/db/s/resharding/resharding_oplog_applier_test.cpp:267-319 | a round that does not end the phase consumes records from the source, so every phase ends |
| ApplierSpec.BatchRound | src/mongo/db/s/resharding/resharding_oplog_applier_test.cpp:267-319 | with both services up, a fillable and parseable batch is the next batchSize records (or all that are left); it is applied, its last record becomes the progress, and the phase ends there exactly when cloning reaches the boundary |
| ApplierSpec.FillFailureEndsPhase | src/mongo/db/s/resharding/resharding_oplog_applier_test.cpp:575-622 | when a batch cannot be filled, the phase fails with InternalError with collection, ledger and progress unchanged, and only the last record is left in the source |
| ApplierSpec.ParseFailureEndsPhase | src/mongo/db/s/resharding/resharding_oplog_applier_test.cpp:321-354 | when a batch holds an unparseable record, the phase fails with FailedToParse, keeps the writes of the records before it and stores no progress for that batch |
| ApplierSpec.HealthyPhase | src/mongo/db/s/resharding/resharding_oplog_applier_test.cpp:267-319 | with running services, a non-failing source and parseable records, a phase equals the reference outcome CutOutcome: the first PhaseCut records are applied, progress is the last of them (or unchanged if none), and the source keeps the rest |
| ApplierSpec.SuccessIsCut | src/mongo/db/s/resharding/resharding_oplog_applier_test.cpp:356-408 | every phase that succeeds equals the reference outcome CutOutcome, whatever follows the cut in the source: a clone phase that succeeds before a bad record or an armed iterator has applied exactly the first PhaseCut records |
| ApplierSpec.CatchUpCutIsEverything | src/mongo/db/s/resharding/resharding_oplog_applier_test.cpp:307-318 | the catch-up phase applies every record the source holds |
| ApplierSpec.CutIsBatchAligned | src/mongo/db/s/resharding/resharding_oplog_applier_test.cpp:289-305 | a phase that ends normally has applied a whole number of batches, or the whole source |
| ApplierSpec.CloneCoversBoundary | src/mongo/db/s/resharding/resharding_oplog_applier_test.cpp:294-300 | on a stream in timestamp order, the clone phase applies every record at or before the clone-finished timestamp |
| ApplierSpec.LastBatchStart | src/mongo/db/s/resharding/resharding_oplog_applier_test.cpp:289-305 | where the final batch of a phase's cut starts: a whole number of batches into the source, below the cut when anything is applied, and at most batchSize records before the cut's end, which makes it the unique batch boundary in that window |
| ApplierSpec.CloneOvershootsByLessThanABatch | src/mongo/db/s/resharding/resharding_oplog_applier_test.cpp:443-486 | on a stream in timestamp order, every record past the clone-finished timestamp that the clone phase applies lies in its last batch (at or after LastBatchStart), so it is within batchSize records of the cut's end |
| ApplierSpec.PhaseAppliesStreamPrefix | src/mongo/db/s/resharding/resharding_oplog_applier_test.cpp:356-408 | whatever happens, a phase consumes a prefix of the source. Of it, a prefix of whole batches is committed and covered by progress, and a prefix at most one batch longer is applied. The two differ only on FailedToParse, and a successful phase applied exactly what it committed |
| ApplierSpec.ExhaustedSourceEndsPhase | src/mongo/db/s/resharding/resharding_oplog_applier_test.cpp:189-209 | a phase over an empty source succeeds and changes nothing |
| ApplierSpec.ExecutorDownFailsUntouched | src/mongo/db/s/resharding/resharding_oplog_applier_test.cpp:690-720 | with the executor shut down, a phase fails with ShutdownInProgress and changes nothing, the source included |
| ApplierSpec.WriterPoolDownAppliesNothing | src/mongo/db/s/resharding/resharding_oplog_applier_test.cpp:767-797 | with the executor running, the writer pool shut down and records to apply, a phase fails with ShutdownInProgress and leaves collection, ledger and progress unchanged, provided the batch can be filled: the iterator is not armed, or more than batchSize records are left (an armed iterator with fewer fails the fill first, with InternalError) |
| OplogApplier.TaskService.constructor | src/mongo/db/s/resharding/resharding_oplog_applier_test.cpp:698-707 | a new executor or writer pool accepts work |
| OplogApplier.TaskService.Shutdown | src/mongo/db/s/resharding/resharding_oplog_applier_test.cpp:709 | after shutdown the service refuses work |
| OplogApplier.ReshardingOplogApplier.constructor | src/mongo/db/s/resharding/resharding_oplog_applier_test.cpp:278-287 | the applier keeps its clone-finished timestamp, batch size, iterator and services, and starts with an empty collection, the current ledger and no stored progress |
| OplogApplier.ReshardingOplogApplier.GetNextBatch | src/mongo/db/s/resharding/resharding_oplog_applier_test.cpp:488-523 | the loop of getNext calls returns the batch and leaves the iterator's queue exactly as FillBatch says |
| OplogApplier.ReshardingOplogApplier.ApplyBatch | src/mongo/db/s/resharding/resharding_oplog_applier_test.cpp:321-354 | the record-by-record loop leaves the status, collection and ledger exactly as ApplyAll says |
| OplogApplier.ReshardingOplogApplier.RunBatches | src/mongo/db/s/resharding/resharding_oplog_applier_test.cpp:267-319 | the batch loop leaves the status and the applier's state exactly as ApplyPhase says, and changes no configuration |
| OplogApplier.ReshardingOplogApplier.ApplyUntilCloneFinishedTs | src/mongo/db/s/resharding/resharding_oplog_applier_test.cpp:289-305 | the clone phase's status and state are ApplyPhase's for the Cloning phase |
| OplogApplier.ReshardingOplogApplier.ApplyUntilDone | src/mongo/db/s/resharding/resharding_oplog_applier_test.cpp:307-318 | the catch-up phase's status and state are ApplyPhase's for the CatchUp phase |
| ApplierTests.NewApplier | src/mongo/db/s/resharding/resharding_oplog_applier_test.cpp:277-287 | a test applier over fresh and distinct iterator, executor and writer pool, in the initial state with both services running |
| ApplierTests.NothingToIterate | src/mongo/db/s/resharding/resharding_oplog_applier_test.cpp:189-209 | both phases succeed on an empty iterator |
| ApplierTests.TwoBatchesOfTwo | src/mongo/db/s/resharding/resharding_oplog_applier_test.cpp:211-265 | from an empty collection, four parseable records with boundary (6,3) at the second and batches of two: the clone phase applies the first two with progress (6,3) and leaves the other two in the source; the catch-up phase applies those with progress (8,3) and empties the source |
| ApplierTests.BasicCrudPhases | src/mongo/db/s/resharding/resharding_oplog_applier_test.cpp:211-265 | the basic scenario on the phase functions: after the clone phase exactly documents 1 and 2 exist; after catch-up only document 2, with x = 1, and progress (8,3) |
| ApplierTests.ApplyBasicCrud | src/mongo/db/s/resharding/resharding_oplog_applier_test.cpp:211-265 | both phases succeed; documents 1 and 2 exist after cloning; after catch-up only document 2 exists, with x = 1; progress is (8,3) |
| ApplierTests.TwentyInsertsCloneCut | src/mongo/db/s/resharding/resharding_oplog_applier_test.cpp:267-305 | twenty inserts with boundary (8,3) and batches of three: the clone phase applies exactly nine records |
| ApplierTests.TwentyInsertsClone | src/mongo/db/s/resharding/resharding_oplog_applier_test.cpp:289-305 | after the clone phase exactly documents 0 to 8 exist, the ledger is untouched, progress is (8,3) and the source holds the other eleven records |
| ApplierTests.TwentyInsertsCatchUp | src/mongo/db/s/resharding/resharding_oplog_applier_test.cpp:307-318 | after the catch-up phase exactly documents 0 to 19 exist and progress is (19,3) |
| ApplierTests.TwentyInsertsPhases | src/mongo/db/s/resharding/resharding_oplog_applier_test.cpp:267-319 | both phases over twenty inserts with batches of three and boundary (8,3) succeed: exactly documents 0 to 8 and progress (8,3) after cloning, exactly documents 0 to 19 and progress (19,3) after catch-up |
| ApplierTests.InsertTypeOplogAppliedInMultipleBatches | src/mongo/db/s/resharding/resharding_oplog_applier_test.cpp:267-319 | documents 0 to 8 but not 9 after cloning, with progress (8,3); documents 0 to 18 after catch-up, with progress (19,3) |
| ApplierTests.ErrorDuringBatchApplyCloningPhase | src/mongo/db/s/resharding/resharding_oplog_applier_test.cpp:321-354 | FailedToParse; the collection is exactly document 1, written before the bad record in the same batch; no progress |
| ApplierTests.ErrorDuringBatchApplyClone | src/mongo/db/s/resharding/resharding_oplog_applier_test.cpp:321-354 | on the phase functions, the clone phase over [insert 1, bad update] with batches of four fails with FailedToParse, keeps document 1, stores no progress and empties the source |
| ApplierTests.FirstBatchReachesBoundary | src/mongo/db/s/resharding/resharding_oplog_applier_test.cpp:443-486 | inserts 1 at (5,3) and 2 at (6,3) at the front of three or more records, batches of two, a boundary at or before (6,3) and running services: the clone phase applies both, stores (6,3), stops and leaves the rest in the source |
| ApplierTests.ErrorDuringBatchApplyCatchUpPhases | src/mongo/db/s/resharding/resharding_oplog_applier_test.cpp:356-408 | the clone phase succeeds; the catch-up batch [insert 3, bad update] fails with FailedToParse, leaves exactly documents 1 to 3 and keeps progress (6,3) |
| ApplierTests.ErrorDuringBatchApplyCatchUpPhase | src/mongo/db/s/resharding/resharding_oplog_applier_test.cpp:356-408 | the clone phase succeeds; catch-up fails with FailedToParse; the collection is exactly documents 1 to 3; progress (6,3) |
| ApplierTests.ErrorWhileIteratingFirstOplogCloningPhase | src/mongo/db/s/resharding/resharding_oplog_applier_test.cpp:410-441 | InternalError, an empty collection, no progress |
| ApplierTests.BoundaryThenFailingPull | src/mongo/db/s/resharding/resharding_oplog_applier_test.cpp:443-486 | with the iterator armed, three or four records and a boundary the second reaches: the clone phase applies the first two and stores (6,3); the catch-up phase then fails with InternalError, leaving exactly documents 1 and 2 and progress (6,3) |
| ApplierTests.ErrorWhileIteratingFirstOplogCatchUpPhase | src/mongo/db/s/resharding/resharding_oplog_applier_test.cpp:443-486 | the clone phase succeeds; catch-up fails with InternalError; the collection is exactly documents 1 and 2, the second past the boundary, and progress is (6,3) |
| ApplierTests.ErrorWhileIteratingFirstBatchCloningPhase | src/mongo/db/s/resharding/resharding_oplog_applier_test.cpp:488-523 | InternalError; no record of the unfillable batch is applied, so the collection is empty; no progress |
| ApplierTests.ErrorWhileIteratingFirstBatchCatchUpPhase | src/mongo/db/s/resharding/resharding_oplog_applier_test.cpp:525-573 | the clone phase succeeds; catch-up fails with InternalError; the collection is exactly documents 1 and 2 and progress stays (6,3) |
| ApplierTests.ErrorWhileIteratingSecondBatchCloningPhase | src/mongo/db/s/resharding/resharding_oplog_applier_test.cpp:575-622 | InternalError; the collection is exactly documents 1 and 2; progress (6,3) |
| ApplierTests.ErrorWhileIteratingSecondBatchClone | src/mongo/db/s/resharding/resharding_oplog_applier_test.cpp:575-622 | on the phase functions, the first batch stays below boundary (7,3) and is committed with progress (6,3); pulling the last record then fails with InternalError, which stays in the source |
| ApplierTests.ErrorWhileIteratingSecondBatchCatchUpPhases | src/mongo/db/s/resharding/resharding_oplog_applier_test.cpp:624-688 | the clone phase succeeds; the catch-up phase commits documents 3 and 4 with progress (8,3) and then fails with InternalError, leaving exactly documents 1 to 4 |
| ApplierTests.ErrorWhileIteratingSecondBatchCatchUpPhase | src/mongo/db/s/resharding/resharding_oplog_applier_test.cpp:624-688 | the clone phase succeeds; catch-up fails with InternalError; the collection is exactly documents 1 to 4; progress (8,3) |
| ApplierTests.ExecutorIsShutDownCloningPhase | src/mongo/db/s/resharding/resharding_oplog_applier_test.cpp:690-720 | ShutdownInProgress, an empty collection, no progress |
| ApplierTests.ExecutorIsShutDownCatchUpPhase | src/mongo/db/s/resharding/resharding_oplog_applier_test.cpp:722-765 | the clone phase succeeds; catch-up fails with ShutdownInProgress; the collection is exactly documents 1 and 2 and progress stays (6,3) |
| ApplierTests.WriterPoolIsShutDownCloningPhase | src/mongo/db/s/resharding/resharding_oplog_applier_test.cpp:767-797 | ShutdownInProgress, an empty collection, no progress |
| ApplierTests.WriterPoolIsShutDownCatchUpPhase | src/mongo/db/s/resharding/resharding_oplog_applier_test.cpp:799-842 | the clone phase succeeds; catch-up fails with ShutdownInProgress; the collection is exactly documents 1 and 2 and progress stays (6,3) |
| ApplierTests.OneRecordPhases | src/mongo/db/s/resharding/resharding_oplog_applier_test.cpp:1096-1119 | a single parseable record at (5,3) before a boundary at (6,3) is applied in the clone phase, which then finds the source exhausted; catch-up changes nothing |
| ApplierTests.FirstSessionTwoStatements | src/mongo/db/s/resharding/resharding_oplog_applier_test.cpp:928-1007 | two inserts by statements 1 and 2 of session 1's transaction 1 add documents 1 and 2 and leave session 1 at transaction 1 with both statements |
| ApplierTests.CrudOnThreeSessionsPhases | src/mongo/db/s/resharding/resharding_oplog_applier_test.cpp:928-1007 | both phases succeed; only document 2 remains, with x = 1; progress (8,3); session 1 holds statements 1 and 2 of transaction 1, and sessions 2 and 3 statement 1 of transaction 1 |
| ApplierTests.ThreeSessionsQueries | src/mongo/db/s/resharding/resharding_oplog_applier_test.cpp:1000-1006 | on that ledger, the four applied statements report executed and statement 2 of sessions 2 and 3 does not |
| ApplierTests.CrudWithEmptyConfigTransactions | src/mongo/db/s/resharding/resharding_oplog_applier_test.cpp:928-1007 | both phases succeed; document 1 is gone and document 2 has x = 1; progress (8,3); the four applied statements report executed and statement 2 of sessions 2 and 3 does not |
| ApplierTests.TwoTxnsOnOneSessionPhases | src/mongo/db/s/resharding/resharding_oplog_applier_test.cpp:1009-1082 | both phases succeed; documents 1 to 4 exist; progress (8,3); session 1 has moved to transaction 2 holding only statement 21, and session 2 is at transaction 1 with statement 1 |
| ApplierTests.TwoTxnsQueries | src/mongo/db/s/resharding/resharding_oplog_applier_test.cpp:1080-1081 | on that ledger, statement 21 of session 1's transaction 2 and statement 1 of session 2's transaction 1 report executed |
| ApplierTests.MultipleTxnSameLsidInOneBatch | src/mongo/db/s/resharding/resharding_oplog_applier_test.cpp:1009-1082 | both phases succeed; documents 1 to 4 exist; statement 21 of session 1's transaction 2 and statement 1 of session 2 report executed |
| ApplierTests.RunRetryableInsert | src/mongo/db/s/resharding/resharding_oplog_applier_test.cpp:1084-1125 | after one earlier write on the session, both phases succeed, document 1 exists and the ledger is the earlier write advanced by the incoming one |
| ApplierTests.RetryableWithLowerExistingTxn | src/mongo/db/s/resharding/resharding_oplog_applier_test.cpp:1084-1125 | document 1 exists and the incoming statement reports executed |
| ApplierTests.RetryableWithHigherExistingTxnNum | src/mongo/db/s/resharding/resharding_oplog_applier_test.cpp:1127-1181 | document 1 exists even though the session info is stale; querying the incoming transaction fails with TransactionTooOld; the existing statement still reports executed |
| ApplierTests.RetryableWithLowerExistingTxnNum | src/mongo/db/s/resharding/resharding_oplog_applier_test.cpp:1183-1228 | document 1 exists and the incoming statement reports executed |
| ApplierTests.RetryableWithEqualExistingTxnNum | src/mongo/db/s/resharding/resharding_oplog_applier_test.cpp:1230-1275 | document 1 exists; the incoming and the existing statement both report executed |
| ApplierTests.RetryableWithStmtIdAlreadyExecuted | src/mongo/db/s/resharding/resharding_oplog_applier_test.cpp:1277-1321 | document 1 exists and the statement reports executed |

## Left out

- Concurrency: the writer pool's fan-out of a batch across workers, the executor's scheduling and the futures the phases return. Batches are applied sequentially in record order. The executor and the pool are a `running` flag each. The executor is checked before each batch is pulled; the pool is checked after a non-empty batch is pulled and before anything in it is applied.
- Lookahead buffer: there is none. The test cases at lines 443-486, 722-765 and 799-842 show a record past the clone-finished timestamp applied in the clone phase when it shares the batch that reaches the timestamp: the stored progress is (6,3) with a boundary of (5,3).
- IsWriteAlreadyExecuted: the query is a pure function of the ledger. The test helper at lines 910-926 calls `beginOrContinue` with the queried transaction number before it checks the statement, so querying a number higher than the recorded one moves the in-memory session forward. The model leaves that side effect out because no test case queries a higher number and then looks at the session again.
- A batch size of 0: `BatchSize` is a positive number, so the applier cannot be built with 0. No test case uses 0 (they use 2, 3 and 4), and the test suite does not show what the applier does with it.
- Restart and resume from stored progress: no test case exercises them.
- The OpTime term, the wall-clock time and the namespace and UUID of each record: these are not compared by the test cases. A record is its timestamp, its operation and its optional session info.
- BSON: documents are maps from field names to integers, and the only update modifier is a single `$set`. The invalid update operator of the test cases is any unknown modifier, and applying it fails with FailedToParse.
- Noop records, and the retryable-write oplog entry that the fixture's `writeTxnRecord` inserts: only the ledger entry it leaves behind is modelled (`PriorWrite`).
- Two storage choices that no test case observes: an insert on an existing `_id` replaces the document, and a `$set` on a missing `_id` does nothing.
- Storage and checkStoredProgress: the output collection, the session ledger and the progress document are fields of the applier. `checkStoredProgress` is reading the `progress` field, keyed implicitly by the single donor the applier serves.
- Transaction state (the `DurableTxnStateEnum` argument of `writeTxnRecord`) and the previous-write optime chain: no test case sets or reads them.
- The fixture plumbing (`setUp`, `makeOplog`, the namespaces and shard ids, the session-catalog helpers): it is replaced by `NewApplier` and by the scenario helpers of `ApplierTests`.
- `jstests/aggregation/split_match_and_swap_with_sort.js`: an end-to-end test of the aggregation optimiser against a live server. It is not part of this model.
