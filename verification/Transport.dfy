/** What both transports share: frames, errors and Go channels
    (internal/transport/frame.go, internal/transport/transport.go). */
module Transport {
  import opened Prelude

  datatype Frame = Frame(data: seq<bv8>)

  datatype TransportError = Closed | Backpressure | FrameTooLarge | Canceled

  const DEFAULT_QUEUE_CAPACITY: nat := 64
  const CONTROL_FRAME_MAX_BYTES: nat := 256 * 1024
  const EVENT_FRAME_MAX_BYTES: nat := 1024 * 1024

  /** A buffered Go channel. Sending on a closed channel and closing it twice panic in
      Go; here they are excluded by preconditions that every caller has to prove. */
  class Channel<T> {
    const capacity: nat
    var queue: seq<T>
    var closed: bool

    ghost predicate Valid()
      reads this
    {
      |queue| <= capacity
    }

    constructor (capacity: nat)
      ensures Valid() && this.capacity == capacity && queue == [] && !closed
    {
      this.capacity, queue, closed := capacity, [], false;
    }

    /** A send in a select with a default branch. */
    method TrySend(x: T) returns (ok: bool)
      requires Valid() && !closed
      modifies this
      ensures Valid() && closed == old(closed)
      ensures ok == (|old(queue)| < capacity)
      ensures queue == if ok then old(queue) + [x] else old(queue)
    {
      ok := |queue| < capacity;
      if ok { queue := queue + [x]; }
    }

    method Close()
      requires Valid() && !closed
      modifies this
      ensures Valid() && closed && queue == old(queue)
    {
      closed := true;
    }

    /** A receive that finds something: the oldest element, or `None` from a closed and drained channel. */
    method Receive() returns (x: Option<T>)
      requires Valid() && (queue != [] || closed)
      modifies this
      ensures Valid() && closed == old(closed)
      ensures x == if old(queue) == [] then None else Some(old(queue)[0])
      ensures queue == if old(queue) == [] then [] else old(queue)[1..]
    {
      if queue == [] { return None; }
      x := Some(queue[0]);
      queue := queue[1..];
    }
  }
}
