/** The record channel `chan []byte` that the front door fills and one sink
    worker drains: a first-in first-out buffer of records with a fixed
    capacity, shared by reference between the logger and its sink. */
module Queue {
  import opened Base

  class Channel {
    /** The buffer size given to `make(chan []byte, n)`. */
    const capacity: nat
    /** The records in the channel, oldest first. */
    var items: seq<Bytes>

    constructor (capacity: nat)
      ensures this.capacity == capacity && items == []
    {
      this.capacity := capacity;
      items := [];
    }

    /** `len(ch)`. */
    function Len(): nat
      reads this
    {
      |items|
    }

    /** `ch <- x` when the buffer has room; a send into a full buffer would
        block, and every caller in the model decides that case itself. */
    method Send(x: Bytes)
      requires |items| < capacity
      modifies this
      ensures items == old(items) + [x]
    {
      items := items + [x];
    }

    /** `x := <-ch` when a record is waiting; the callers decide what an
        empty channel means for them. */
    method Receive() returns (x: Bytes)
      requires items != []
      modifies this
      ensures x == old(items)[0] && items == old(items)[1..]
    {
      x := items[0];
      items := items[1..];
    }
  }
}
