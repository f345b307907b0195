/** Shared vocabulary: optional values and the three ways a remote command can end. */
module Prelude {

  datatype Option<+T> = None | Some(value: T) {
    function GetOr(default: T): T {
      match this
      case Some(v) => v
      case None => default
    }
  }

  /** What a caller learns from one awaited command.
      Delivered: the command ran and its reply arrived.
      Dropped: the command had no effect and the await threw.
      ReplyLost: the command took effect but the await threw (connection lost after commit). */
  datatype Reply = Delivered | Dropped | ReplyLost

  /** An awaited command's reply, or the exception it threw. */
  datatype Answer<+T> = Ok(value: T) | Thrown
}
