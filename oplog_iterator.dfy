/**
 * The change source used by the applier's tests: a FIFO queue of donor
 * records that hands them out one at a time and can be told to fail while
 * exactly one record is left.
 */
module OplogIterator {
  import opened Common
  import opened Oplog

  /** One successful getNext: the record handed out (none once the queue is empty) and the queue left behind. */
  datatype Pull = Pull(next: Option<Record>, rest: seq<Record>)

  /** getNext as a function of the queue and the throw flag. */
  function Next(queue: seq<Record>, doThrow: bool): (r: Result<Pull>)
    ensures r.Failure? <==> doThrow && |queue| == 1
    ensures r.Failure? ==> r.error == InternalError
    ensures r.Success? && queue == [] ==> r.value == Pull(None, [])
    ensures r.Success? && queue != [] ==>
              r.value.next == Some(queue[0]) && [queue[0]] + r.value.rest == queue
  {
    if queue == [] then Success(Pull(None, queue))
    else if |queue| <= 1 && doThrow then Failure(InternalError)
    else Success(Pull(Some(queue[0]), queue[1..]))
  }

  /** What a consumer receives by calling getNext until it returns none or fails. */
  datatype Drained = Drained(delivered: seq<Record>, status: Status)

  /**
   * Without the throw flag every record comes out, in queue order. With it,
   * all records but the last come out in order and the last getNext fails
   * with InternalError, so the last record is never delivered.
   */
  function Drain(queue: seq<Record>, doThrow: bool): (d: Drained)
    ensures !doThrow ==> d == Drained(queue, Ok)
    ensures doThrow && queue != [] ==> d == Drained(queue[..|queue| - 1], Err(InternalError))
    ensures doThrow && queue == [] ==> d == Drained([], Ok)
    decreases |queue|
  {
    match Next(queue, doThrow)
    case Failure(e) => Drained([], Err(e))
    case Success(p) =>
      if p.next.None? then Drained([], Ok)
      else
        var d := Drain(p.rest, doThrow);
        assert doThrow && |p.rest| > 0 ==> [queue[0]] + p.rest[..|p.rest| - 1] == queue[..|queue| - 1];
        Drained([p.next.value] + d.delivered, d.status)
  }

  /** The iterator mock: its queue is popped in place and its throw flag can be switched on. */
  class OplogIteratorMock {
    var queue: seq<Record>
    var doThrow: bool

    constructor (oplogToReturn: seq<Record>)
      ensures queue == oplogToReturn && !doThrow
    {
      queue := oplogToReturn;
      doThrow := false;
    }

    /** Pops and returns the front record; none on an empty queue; fails, popping nothing, when armed and one record is left. */
    method GetNext() returns (r: Result<Option<Record>>)
      modifies this
      ensures doThrow == old(doThrow)
      ensures var n := Next(old(queue), doThrow);
              && (n.Failure? ==> r == Failure(n.error) && queue == old(queue))
              && (n.Success? ==> r == Success(n.value.next) && queue == n.value.rest)
    {
      if queue != [] {
        if |queue| <= 1 && doThrow {
          return Failure(InternalError);
        }
        r := Success(Some(queue[0]));
        queue := queue[1..];
      } else {
        r := Success(None);
      }
    }

    /** Arms the iterator to fail when getNext is called with a single record left. */
    method SetThrowWhenSingleItem()
      modifies this
      ensures doThrow && queue == old(queue)
    {
      doThrow := true;
    }

    method HasMore() returns (more: bool)
      ensures more <==> queue != []
    {
      more := queue != [];
    }
  }
}
