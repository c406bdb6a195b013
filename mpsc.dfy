/**
 * The bounded multi-producer single-consumer channel the upload task pushes chunks into
 * (tokio's `mpsc::channel(capacity)`). Its fixed capacity is the only backpressure
 * between the uploading and the downloading connection.
 */
module Mpsc {

  /** What one non-blocking send attempt finds: room, a full buffer, or a dropped receiver. */
  datatype SendResult = Queued | Full | Closed

  class Channel<T> {
    const capacity: nat
    /** Items sent and not yet received, oldest first. */
    var queue: seq<T>
    /** False once the receiving half has been dropped. */
    var receiverOpen: bool
    /** Every item the channel ever accepted, in order; `queue` is always a suffix of it. */
    ghost var accepted: seq<T>

    ghost predicate Valid()
      reads this
    {
      && 0 < capacity
      && |queue| <= capacity
      && |queue| <= |accepted|
      && accepted[|accepted| - |queue|..] == queue
      && (!receiverOpen ==> queue == [])
    }

    constructor (capacity: nat)
      requires 0 < capacity
      ensures Valid() && this.capacity == capacity
      ensures queue == [] && receiverOpen && accepted == []
    {
      this.capacity := capacity;
      queue := [];
      receiverOpen := true;
      accepted := [];
    }

    /** One send attempt: it fails when the receiver is gone, would block when the buffer is full. */
    method TrySend(x: T) returns (r: SendResult)
      requires Valid()
      modifies this
      ensures Valid() && receiverOpen == old(receiverOpen)
      ensures r == if !old(receiverOpen) then Closed else if |old(queue)| == capacity then Full else Queued
      ensures r == Queued ==> queue == old(queue) + [x] && accepted == old(accepted) + [x]
      ensures r != Queued ==> queue == old(queue) && accepted == old(accepted)
    {
      if !receiverOpen {
        r := Closed;
      } else if |queue| == capacity {
        r := Full;
      } else {
        queue := queue + [x];
        accepted := accepted + [x];
        r := Queued;
      }
    }

    /**
     * The receiver takes the oldest buffered item. Only called with an item buffered: the
     * download response polls again only once the task has pushed something.
     */
    method Recv() returns (x: T)
      requires Valid() && queue != []
      modifies this
      ensures Valid() && receiverOpen == old(receiverOpen) && accepted == old(accepted)
      ensures x == old(queue)[0] && queue == old(queue)[1..]
    {
      x := queue[0];
      queue := queue[1..];
    }

    /** Dropping the receiving half: buffered items are discarded and later sends fail. */
    method CloseReceiver()
      requires Valid()
      modifies this
      ensures Valid() && !receiverOpen && queue == [] && accepted == old(accepted)
    {
      receiverOpen := false;
      queue := [];
    }
  }
}
