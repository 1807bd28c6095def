/** Change records as the donor's oplog produces them. */
module Oplog {
  import opened Common

  /** A cluster timestamp: seconds and an increment within the second. */
  datatype Timestamp = Timestamp(secs: nat, inc: nat)

  /** Timestamps are ordered by seconds first, then by increment. */
  predicate TsLess(a: Timestamp, b: Timestamp)
  {
    a.secs < b.secs || (a.secs == b.secs && a.inc < b.inc)
  }

  predicate TsLe(a: Timestamp, b: Timestamp)
  {
    !TsLess(b, a)
  }

  /** The `_id` a donor record carries in the resharding oplog buffer; it doubles as the progress marker. */
  datatype DonorOplogId = DonorOplogId(clusterTime: Timestamp, ts: Timestamp)

  /** An update's modifier: a `$set` of one field, or an operator the store cannot parse. */
  datatype Modifier =
    | Set(field: string, value: int)
    | UnknownOperator(name: string)

  /** The CRUD operation of a record, on the document whose `_id` is `id`. */
  datatype Op =
    | Insert(id: int, fields: map<string, int>)
    | Update(id: int, modifier: Modifier)
    | Delete(id: int)

  /** Retryable-write metadata: logical session, transaction number, statement id. */
  datatype SessionInfo = SessionInfo(lsid: int, txnNumber: int, stmtId: int)

  datatype Record = Record(ts: Timestamp, op: Op, session: Option<SessionInfo>)

  /** A record's donor id: both its cluster time and its ts are the record's own timestamp. */
  function DonorIdOf(r: Record): DonorOplogId
  {
    DonorOplogId(r.ts, r.ts)
  }

  /** The stream is in strictly increasing timestamp order. */
  ghost predicate Sorted(q: seq<Record>)
  {
    forall i, j :: 0 <= i < j < |q| ==> TsLess(q[i].ts, q[j].ts)
  }
}
