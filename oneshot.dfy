/**
 * The one-shot "download client connected" signal shared by an upload session (which holds
 * the sender) and the upload task (which waits on the receiver).
 */
module Oneshot {

  /** Pending: nobody has sent yet. Fired: the sender sent. SenderDropped: the sender went away unsent. */
  datatype ReadyState = Pending | Fired | SenderDropped

  class ReadySignal {
    var state: ReadyState

    constructor ()
      ensures state == Pending
    {
      state := Pending;
    }

    /** Sending consumes the sender, so it can happen only while the signal is still pending. */
    method Send()
      requires state == Pending
      modifies this
      ensures state == Fired
    {
      state := Fired;
    }

    /** The sender is dropped without sending (its session was discarded). */
    method DropSender()
      requires state == Pending
      modifies this
      ensures state == SenderDropped
    {
      state := SenderDropped;
    }
  }
}
