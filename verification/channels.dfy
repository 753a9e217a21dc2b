/** A Go channel seen from its single producer: the values sent so far, in order,
    and whether it has been closed. Sending on or closing a closed channel makes
    Go panic, so both operations require an open channel; a caller that verifies
    therefore closes each channel at most once, and only after its last send. */
module Channels {
  class Channel<T> {
    var sent: seq<T>
    var closed: bool

    /** `make(chan T)`. */
    constructor ()
      ensures sent == [] && !closed
    {
      sent := [];
      closed := false;
    }

    /** `ch <- x`. */
    method Send(x: T)
      requires !closed
      modifies this
      ensures sent == old(sent) + [x] && !closed
    {
      sent := sent + [x];
    }

    /** `close(ch)`. */
    method Close()
      requires !closed
      modifies this
      ensures sent == old(sent) && closed
    {
      closed := true;
    }
  }
}
