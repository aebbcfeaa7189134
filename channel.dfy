/** The work channel between the producer and the deleters, seen from the
    producing side: the sequence of batches sent on it so far. */
module Channel {
  import opened Model

  class WorkChannel {
    var sent: seq<DeleteItemRequest>

    constructor ()
      ensures sent == []
    {
      sent := [];
    }

    /** Sending a batch appends it to what has been sent. */
    method Send(r: DeleteItemRequest)
      modifies this
      ensures sent == old(sent) + [r]
    {
      sent := sent + [r];
    }
  }
}
