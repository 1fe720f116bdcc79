/** Option and Result values, and the Python exceptions the modelled code raises. */
module Wrappers {

  datatype Option<+T> = None | Some(value: T)

  /** The exceptions raised by the modelled code, by their Python cause. */
  datatype Exception =
    | ChunkAlreadyOpen   // `Exception("Chunk already open")`
    | NoChunk            // `Exception("No chunk found to attach ...")`
    | KeyError           // a message type without a colour entry
    | AttributeError     // `ljust` looked up on the `MessageType` class
    | ValueError         // bad alignment mode, bad column sizes, negative `maxlen`, `max([])`
    | IndexError         // a column index past the sizes or alignments list
    | AssertionError     // an unknown tracker quantity

  datatype Result<+T> = Success(value: T) | Failure(error: Exception)

  /** Outcome of a call that returns nothing in Python: it returned, or it raised. */
  datatype Status = Done | Raised(error: Exception)
}
