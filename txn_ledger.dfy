/**
 * The retryable-write ledger (the session transaction table): for each
 * logical session, the latest transaction number and the statements of that
 * transaction already applied.
 */
module TxnLedger {
  import opened Common
  import opened Oplog

  datatype TxnRecord = TxnRecord(txnNumber: int, stmtIds: set<int>)

  /** Session records keyed by logical session id. */
  type Ledger = map<int, TxnRecord>

  /** Beginning or continuing a transaction: a number below the session's recorded one is too old. */
  function CheckTxnNumber(ledger: Ledger, lsid: int, txnNumber: int): (r: Status)
    ensures r.Err? <==> lsid in ledger && txnNumber < ledger[lsid].txnNumber
    ensures r.Err? ==> r.code == TransactionTooOld
  {
    if lsid in ledger && txnNumber < ledger[lsid].txnNumber then Err(TransactionTooOld) else Ok
  }

  /**
   * Whether statement `stmtId` of transaction `txnNumber` on session `lsid`
   * has already been executed. A transaction number below the recorded one
   * fails; otherwise the answer is yes exactly when the session's current
   * transaction is `txnNumber` and it lists the statement.
   */
  function IsWriteAlreadyExecuted(ledger: Ledger, lsid: int, txnNumber: int, stmtId: int): (r: Result<bool>)
    ensures r.Failure? <==> CheckTxnNumber(ledger, lsid, txnNumber).Err?
    ensures r.Failure? ==> r.error == TransactionTooOld
    ensures r == Success(true) <==>
              lsid in ledger && ledger[lsid].txnNumber == txnNumber && stmtId in ledger[lsid].stmtIds
    ensures lsid !in ledger ==> r == Success(false)
  {
    var check := CheckTxnNumber(ledger, lsid, txnNumber);
    if check.Err? then Failure(check.code)
    else Success(lsid in ledger && ledger[lsid].txnNumber == txnNumber && stmtId in ledger[lsid].stmtIds)
  }

  /**
   * Records that statement `s.stmtId` of transaction `s.txnNumber` was
   * applied: a new or higher transaction number replaces the session's entry,
   * an equal one adds the statement to it, a lower one is too old.
   */
  function Advance(ledger: Ledger, s: SessionInfo): (r: Result<Ledger>)
    ensures r.Failure? <==> CheckTxnNumber(ledger, s.lsid, s.txnNumber).Err?
    ensures r.Failure? ==> r.error == TransactionTooOld
    // once recorded, the statement reports executed
    ensures r.Success? ==> IsWriteAlreadyExecuted(r.value, s.lsid, s.txnNumber, s.stmtId) == Success(true)
    // statements already recorded for the same transaction stay recorded
    ensures r.Success? ==>
              forall st :: IsWriteAlreadyExecuted(ledger, s.lsid, s.txnNumber, st) == Success(true) ==>
                IsWriteAlreadyExecuted(r.value, s.lsid, s.txnNumber, st) == Success(true)
    // nothing else becomes executed
    ensures r.Success? ==>
              forall st :: IsWriteAlreadyExecuted(r.value, s.lsid, s.txnNumber, st) == Success(true) ==>
                st == s.stmtId || IsWriteAlreadyExecuted(ledger, s.lsid, s.txnNumber, st) == Success(true)
    // other sessions are untouched
    ensures r.Success? ==> r.value - {s.lsid} == ledger - {s.lsid} && s.lsid in r.value
    // the session's transaction number never goes down
    ensures r.Success? && s.lsid in ledger ==> ledger[s.lsid].txnNumber <= r.value[s.lsid].txnNumber
  {
    if s.lsid !in ledger || ledger[s.lsid].txnNumber < s.txnNumber then
      Success(ledger[s.lsid := TxnRecord(s.txnNumber, {s.stmtId})])
    else if ledger[s.lsid].txnNumber == s.txnNumber then
      Success(ledger[s.lsid := TxnRecord(s.txnNumber, ledger[s.lsid].stmtIds + {s.stmtId})])
    else
      Failure(TransactionTooOld)
  }

  /**
   * The ledger update made after a record's write. A too-old transaction
   * number is caught here: the ledger stays as it was and nothing is reported.
   */
  function RecordWrite(ledger: Ledger, s: SessionInfo): (r: Ledger)
    ensures CheckTxnNumber(ledger, s.lsid, s.txnNumber).Err? ==> r == ledger
    ensures CheckTxnNumber(ledger, s.lsid, s.txnNumber).Ok? ==>
              IsWriteAlreadyExecuted(r, s.lsid, s.txnNumber, s.stmtId) == Success(true)
    ensures r - {s.lsid} == ledger - {s.lsid}
    ensures s.lsid in ledger ==> s.lsid in r && ledger[s.lsid].txnNumber <= r[s.lsid].txnNumber
  {
    match Advance(ledger, s)
    case Failure(_) => ledger
    case Success(l) => l
  }

  /**
   * A stale write leaves the session's entry intact: the statements of the
   * recorded transaction still report executed, and asking about the stale
   * transaction fails as too old.
   */
  lemma StaleWriteKeepsEntry(ledger: Ledger, s: SessionInfo, st: int)
    requires s.lsid in ledger && s.txnNumber < ledger[s.lsid].txnNumber
    ensures RecordWrite(ledger, s) == ledger
    ensures IsWriteAlreadyExecuted(RecordWrite(ledger, s), s.lsid, s.txnNumber, st) == Failure(TransactionTooOld)
    ensures st in ledger[s.lsid].stmtIds ==>
              IsWriteAlreadyExecuted(RecordWrite(ledger, s), s.lsid, ledger[s.lsid].txnNumber, st) == Success(true)
  {
  }

  /** A newer transaction number replaces the entry: only its statement is executed, and older transactions are too old. */
  lemma NewerTxnReplacesEntry(ledger: Ledger, s: SessionInfo, st: int, older: int)
    requires s.lsid in ledger && ledger[s.lsid].txnNumber < s.txnNumber
    requires older < s.txnNumber
    ensures IsWriteAlreadyExecuted(RecordWrite(ledger, s), s.lsid, s.txnNumber, st) == Success(st == s.stmtId)
    ensures IsWriteAlreadyExecuted(RecordWrite(ledger, s), s.lsid, older, st) == Failure(TransactionTooOld)
  {
  }

  /** An equal transaction number accumulates statements under the same transaction. */
  lemma SameTxnAccumulates(ledger: Ledger, s: SessionInfo, st: int)
    requires s.lsid in ledger && ledger[s.lsid].txnNumber == s.txnNumber
    ensures IsWriteAlreadyExecuted(RecordWrite(ledger, s), s.lsid, s.txnNumber, st)
            == Success(st == s.stmtId || st in ledger[s.lsid].stmtIds)
  {
  }
}
