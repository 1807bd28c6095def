/**
 * The resharding oplog applier as the tests drive it: it owns the change
 * source, checks its task executor and writer pool before working, and
 * applies batches of records to the output collection and the session
 * ledger, storing the last applied record as its progress.
 */
module OplogApplier {
  import opened Common
  import opened Oplog
  import opened TxnLedger
  import opened CrudApply
  import opened OplogIterator
  import opened ApplierSpec

  /** A task executor or writer pool: it accepts work until it is shut down. */
  class TaskService {
    var running: bool

    constructor ()
      ensures running
    {
      running := true;
    }

    method Shutdown()
      modifies this
      ensures !running
    {
      running := false;
    }
  }

  class ReshardingOplogApplier {
    /** The timestamp at which the donor's clone finished: the end of the first phase. */
    const cloneFinishedTs: Timestamp
    const batchSize: BatchSize
    const oplogIter: OplogIteratorMock
    const executor: TaskService
    const writerPool: TaskService

    /** The output collection, the session ledger, and the stored progress (what checkStoredProgress reads). */
    var docs: Collection
    var ledger: Ledger
    var progress: Option<DonorOplogId>

    /** The applier starts with an empty output collection, the current session ledger and no stored progress. */
    constructor (cloneFinishedTs: Timestamp, oplogIter: OplogIteratorMock, batchSize: BatchSize,
                 executor: TaskService, writerPool: TaskService, ledger: Ledger)
      ensures this.cloneFinishedTs == cloneFinishedTs && this.batchSize == batchSize
      ensures this.oplogIter == oplogIter && this.executor == executor && this.writerPool == writerPool
      ensures docs == map[] && this.ledger == ledger && progress == None
    {
      this.cloneFinishedTs := cloneFinishedTs;
      this.batchSize := batchSize;
      this.oplogIter := oplogIter;
      this.executor := executor;
      this.writerPool := writerPool;
      docs := map[];
      this.ledger := ledger;
      progress := None;
    }

    /** The applier's state as the batch loop's specification sees it. */
    function Snap(): Snapshot
      reads this, oplogIter
    {
      Snapshot(docs, ledger, progress, oplogIter.queue)
    }

    /** The applier's parameters and its collaborators' availability. */
    function Cfg(): Config
      reads this, oplogIter, executor, writerPool
    {
      Config(cloneFinishedTs, batchSize, oplogIter.doThrow, executor.running, writerPool.running)
    }

    /** Pulls records from the iterator until the batch is full or the iterator has none left. */
    method GetNextBatch() returns (batch: Result<seq<Record>>)
      modifies oplogIter
      ensures oplogIter.doThrow == old(oplogIter.doThrow)
      ensures Filled(batch, oplogIter.queue) == FillBatch(old(oplogIter.queue), oplogIter.doThrow, batchSize)
    {
      ghost var q0 := oplogIter.queue;
      var acc: seq<Record> := [];
      while |acc| < batchSize
        invariant |acc| <= batchSize
        invariant acc + oplogIter.queue == q0
        invariant oplogIter.doThrow == old(oplogIter.doThrow)
        invariant oplogIter.doThrow && q0 != [] ==> oplogIter.queue != []
        decreases batchSize - |acc|
      {
        var r := oplogIter.GetNext();
        if r.Failure? {
          FillFailsOnLast(acc, oplogIter.queue, oplogIter.doThrow, batchSize);
          return Failure(r.error);
        }
        if r.value.None? {
          assert acc == q0;
          FillTakesAll(acc, oplogIter.doThrow, batchSize);
          return Success(acc);
        }
        acc := acc + [r.value.value];
      }
      FillTakesFull(acc, oplogIter.queue, oplogIter.doThrow, batchSize);
      return Success(acc);
    }

    /** Applies the batch's records in order, stopping at the first one the store cannot apply. */
    method ApplyBatch(batch: seq<Record>) returns (status: Status)
      modifies this`docs, this`ledger
      ensures Applied(status, docs, ledger) == ApplyAll(old(docs), old(ledger), batch)
    {
      var i := 0;
      while i < |batch|
        invariant i <= |batch|
        invariant ApplyAll(docs, ledger, batch[i..]) == ApplyAll(old(docs), old(ledger), batch)
      {
        assert batch[i..][1..] == batch[i + 1..];
        var rec := batch[i];
        match ApplyOp(docs, rec.op)
        case Failure(e) =>
          return Err(e);
        case Success(c) =>
          docs := c;
          if rec.session.Some? {
            ledger := RecordWrite(ledger, rec.session.value);
          }
        i := i + 1;
      }
      assert batch[i..] == [];
      return Ok;
    }

    /** Applies batches until the phase ends; see ApplyPhase for when it does. */
    method RunBatches(phase: Phase) returns (status: Status)
      modifies this`docs, this`ledger, this`progress, oplogIter
      ensures Cfg() == old(Cfg())
      ensures PhaseResult(status, Snap()) == ApplyPhase(old(Snap()), old(Cfg()), phase)
    {
      ghost var cfg := Cfg();
      ghost var goal := ApplyPhase(Snap(), cfg, phase);
      while true
        invariant Cfg() == cfg
        invariant ApplyPhase(Snap(), cfg, phase) == goal
        decreases |oplogIter.queue|
      {
        ghost var s := Snap();
        if !executor.running {
          return Err(ShutdownInProgress);
        }
        var batch := GetNextBatch();
        if batch.Failure? {
          return Err(batch.error);
        }
        if batch.value == [] {
          return Ok;
        }
        if !writerPool.running {
          return Err(ShutdownInProgress);
        }
        var st := ApplyBatch(batch.value);
        if st.Err? {
          return st;
        }
        var last := batch.value[|batch.value| - 1];
        progress := Some(DonorIdOf(last));
        if phase == Cloning && TsLe(cloneFinishedTs, last.ts) {
          return Ok;
        }
        assert PhaseRound(s, cfg, phase) == Continue(Snap());
      }
    }

    /** Applies the donor's records up to the batch that reaches the clone-finished timestamp. */
    method ApplyUntilCloneFinishedTs() returns (status: Status)
      modifies this`docs, this`ledger, this`progress, oplogIter
      ensures Cfg() == old(Cfg())
      ensures PhaseResult(status, Snap()) == ApplyPhase(old(Snap()), old(Cfg()), Cloning)
    {
      status := RunBatches(Cloning);
    }

    /** Applies the donor's remaining records until the iterator is exhausted. */
    method ApplyUntilDone() returns (status: Status)
      modifies this`docs, this`ledger, this`progress, oplogIter
      ensures Cfg() == old(Cfg())
      ensures PhaseResult(status, Snap()) == ApplyPhase(old(Snap()), old(Cfg()), CatchUp)
    {
      status := RunBatches(CatchUp);
    }
  }
}
