/** The cross-process record queue, seen as a first-in first-out sequence of records. */
module Queues {
  import opened Records

  class RecordQueue {
    /** The records waiting in the queue, oldest first. */
    var items: seq<Record>

    constructor ()
      ensures items == []
    {
      items := [];
    }

    /** `put`: a producer appends one record at the back. */
    method Put(r: Record)
      modifies this
      ensures items == old(items) + [r]
    {
      items := items + [r];
    }

    /** `empty`: whether nothing is waiting. */
    function Empty(): (b: bool)
      reads this
      ensures b <==> |items| == 0
    {
      items == []
    }

    /** `get`: the single consumer removes the oldest record (called only when not empty). */
    method Get() returns (r: Record)
      requires !Empty()
      modifies this
      ensures [r] + items == old(items)
    {
      r := items[0];
      items := items[1..];
    }
  }
}
