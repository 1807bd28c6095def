/**
 * Applying change records to the resharding output collection, one record
 * at a time and in stream order, with the retryable-write bookkeeping each
 * record's session metadata asks for.
 */
module CrudApply {
  import opened Common
  import opened Oplog
  import opened TxnLedger

  /** A document's fields other than `_id`. */
  type Doc = map<string, int>

  /** The output collection: documents by `_id`. */
  type Collection = map<int, Doc>

  /** Whether the store can parse the operation: only an unknown update operator fails. */
  predicate Parses(op: Op)
  {
    !(op.Update? && op.modifier.UnknownOperator?)
  }

  /**
   * Applies one CRUD operation. An insert stores the document under its `_id`,
   * a `$set` updates one field of the document if it exists, a delete removes
   * the document; an unknown update operator fails with FailedToParse. Only
   * the document with the operation's `_id` is ever touched.
   */
  function ApplyOp(coll: Collection, op: Op): (r: Result<Collection>)
    ensures r.Success? <==> Parses(op)
    ensures r.Failure? ==> r.error == FailedToParse
    ensures r.Success? ==> r.value - {op.id} == coll - {op.id}
    ensures r.Success? && op.Insert? ==> op.id in r.value && r.value[op.id] == op.fields
    ensures r.Success? && op.Delete? ==> op.id !in r.value
    ensures r.Success? && op.Update? ==>
              && (op.id in r.value <==> op.id in coll)
              && (op.id in coll ==> r.value[op.id] == coll[op.id][op.modifier.field := op.modifier.value])
  {
    match op
    case Insert(id, fields) => Success(coll[id := fields])
    case Update(id, m) =>
      if m.UnknownOperator? then Failure(FailedToParse)
      else if id in coll then Success(coll[id := coll[id][m.field := m.value]])
      else Success(coll)
    case Delete(id) => Success(coll - {id})
  }

  /** The collection and the ledger after some records, and whether they all applied. */
  datatype Applied = Applied(status: Status, docs: Collection, ledger: Ledger)

  /**
   * Applies one record: its write first; then, for a record with session
   * metadata, the ledger update. The ledger outcome never undoes or blocks
   * the write; a write that fails changes nothing.
   */
  function ApplyRecord(docs: Collection, ledger: Ledger, rec: Record): (r: Applied)
    ensures r.status.Ok? <==> Parses(rec.op)
    ensures r.status.Err? ==> r == Applied(Err(FailedToParse), docs, ledger)
    ensures r.status.Ok? ==> r.docs == ApplyOp(docs, rec.op).value
    ensures r.status.Ok? && rec.session.Some? ==> r.ledger == RecordWrite(ledger, rec.session.value)
    ensures rec.session.None? ==> r.ledger == ledger
  {
    match ApplyOp(docs, rec.op)
    case Failure(e) => Applied(Err(e), docs, ledger)
    case Success(c) =>
      Applied(Ok, c, if rec.session.Some? then RecordWrite(ledger, rec.session.value) else ledger)
  }

  predicate AllParse(recs: seq<Record>)
  {
    forall i :: 0 <= i < |recs| ==> Parses(recs[i].op)
  }

  /** Applies records in order, stopping at the first one that fails. */
  function ApplyAll(docs: Collection, ledger: Ledger, recs: seq<Record>): (r: Applied)
    ensures r.status.Ok? <==> AllParse(recs)
    ensures r.status.Err? ==> r.status.code == FailedToParse
    decreases |recs|
  {
    if recs == [] then Applied(Ok, docs, ledger)
    else
      var a := ApplyRecord(docs, ledger, recs[0]);
      assert AllParse(recs) <==> Parses(recs[0].op) && AllParse(recs[1..]) by {
        if Parses(recs[0].op) && AllParse(recs[1..]) {
          forall i | 0 <= i < |recs| ensures Parses(recs[i].op) {
            if i > 0 { assert recs[i] == recs[1..][i - 1]; }
          }
        }
      }
      if a.status.Err? then a else ApplyAll(a.docs, a.ledger, recs[1..])
  }

  /** Applying two runs of records one after the other is applying their concatenation. */
  lemma {:induction false} ApplyAllAppend(docs: Collection, ledger: Ledger, xs: seq<Record>, ys: seq<Record>)
    ensures var a := ApplyAll(docs, ledger, xs);
            ApplyAll(docs, ledger, xs + ys) == if a.status.Ok? then ApplyAll(a.docs, a.ledger, ys) else a
    decreases |xs|
  {
    if xs == [] {
      assert xs + ys == ys;
    } else {
      var a := ApplyRecord(docs, ledger, xs[0]);
      assert (xs + ys)[0] == xs[0];
      assert (xs + ys)[1..] == xs[1..] + ys;
      if a.status.Ok? {
        ApplyAllAppend(a.docs, a.ledger, xs[1..], ys);
      }
    }
  }

  /**
   * A failing run of records leaves exactly the records before the first
   * failing one applied: nothing at or after the failure takes effect.
   */
  lemma ApplyAllStopsAtFirstFailure(docs: Collection, ledger: Ledger, recs: seq<Record>, k: nat)
    requires k < |recs| && !Parses(recs[k].op) && AllParse(recs[..k])
    ensures var before := ApplyAll(docs, ledger, recs[..k]);
            ApplyAll(docs, ledger, recs) == Applied(Err(FailedToParse), before.docs, before.ledger)
  {
    assert recs == recs[..k] + recs[k..];
    ApplyAllAppend(docs, ledger, recs[..k], recs[k..]);
    var before := ApplyAll(docs, ledger, recs[..k]);
    assert recs[k..][0] == recs[k];
    assert ApplyRecord(before.docs, before.ledger, recs[k]).status.Err?;
  }

  /** The collection a run of records produces does not depend on the ledger: every write is applied whatever the session bookkeeping says. */
  lemma {:induction false} DocsIndependentOfLedger(docs: Collection, l1: Ledger, l2: Ledger, recs: seq<Record>)
    ensures ApplyAll(docs, l1, recs).docs == ApplyAll(docs, l2, recs).docs
    ensures ApplyAll(docs, l1, recs).status == ApplyAll(docs, l2, recs).status
    decreases |recs|
  {
    if recs != [] {
      var a1 := ApplyRecord(docs, l1, recs[0]);
      var a2 := ApplyRecord(docs, l2, recs[0]);
      if a1.status.Ok? {
        DocsIndependentOfLedger(a1.docs, a1.ledger, a2.ledger, recs[1..]);
      }
    }
  }

  /** No session's transaction number ever goes down, and no session entry disappears. */
  lemma {:induction false} LedgerTxnMonotone(docs: Collection, ledger: Ledger, recs: seq<Record>, lsid: int)
    requires lsid in ledger
    ensures var r := ApplyAll(docs, ledger, recs).ledger;
            lsid in r && ledger[lsid].txnNumber <= r[lsid].txnNumber
    decreases |recs|
  {
    if recs != [] {
      var a := ApplyRecord(docs, ledger, recs[0]);
      if a.status.Ok? {
        if recs[0].session.Some? {
          var s := recs[0].session.value;
          assert lsid in a.ledger && ledger[lsid].txnNumber <= a.ledger[lsid].txnNumber by {
            if lsid != s.lsid {
              assert lsid in ledger - {s.lsid};
              assert (a.ledger - {s.lsid})[lsid] == (ledger - {s.lsid})[lsid];
            }
          }
        }
        LedgerTxnMonotone(a.docs, a.ledger, recs[1..], lsid);
      }
    }
  }

  /** Whether some record of the run carries exactly this session, transaction and statement. */
  predicate Carries(recs: seq<Record>, lsid: int, txnNumber: int, stmtId: int)
  {
    exists i :: 0 <= i < |recs| && recs[i].session == Some(SessionInfo(lsid, txnNumber, stmtId))
  }

  /** A statement that was not executed before and that no applied record carries still reports not executed. */
  lemma {:induction false} NotExecutedUnlessCarried(docs: Collection, ledger: Ledger, recs: seq<Record>,
                                                    lsid: int, txnNumber: int, stmtId: int)
    requires IsWriteAlreadyExecuted(ledger, lsid, txnNumber, stmtId) != Success(true)
    requires !Carries(recs, lsid, txnNumber, stmtId)
    ensures IsWriteAlreadyExecuted(ApplyAll(docs, ledger, recs).ledger, lsid, txnNumber, stmtId) != Success(true)
    decreases |recs|
  {
    if recs != [] {
      var a := ApplyRecord(docs, ledger, recs[0]);
      if a.status.Ok? {
        assert IsWriteAlreadyExecuted(a.ledger, lsid, txnNumber, stmtId) != Success(true) by {
          if recs[0].session.Some? {
            var s := recs[0].session.value;
            assert s != SessionInfo(lsid, txnNumber, stmtId);
            if s.lsid != lsid {
              if lsid in ledger {
                assert (a.ledger - {s.lsid})[lsid] == (ledger - {s.lsid})[lsid];
              } else {
                assert lsid !in ledger - {s.lsid};
              }
            }
          }
        }
        NotExecutedUnlessCarried(a.docs, a.ledger, recs[1..], lsid, txnNumber, stmtId);
      }
    }
  }
}
