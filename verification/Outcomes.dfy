/** What a call into the world outside the bridge may answer. */
module Outcomes {
  datatype Option<+T> = None | Some(value: T)

  /** A hook that may also raise. */
  datatype Try<+T> = Raised | Returned(value: T)

  /** A boolean hook: true, false, or an exception. */
  datatype Reply = Yes | No | Raises

  /** Deleting polls until the object is gone, so it can raise with the object still there or already gone. */
  datatype DeleteReply = Gone | RaisedKept | RaisedGone

  /** Creating can raise with or without the object having been stored. */
  datatype CreateReply = Stored | RaisedAbsent | RaisedStored

  /** A write to Dispatch: what it reported, and whether it took effect. */
  datatype Write = Write(reply: Reply, landed: bool)

  /** A write reported as done was done; a lost answer may hide one that was done as well. */
  predicate Honest(w: Write) {
    w.reply == Yes ==> w.landed
  }
}
