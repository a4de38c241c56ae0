/** Small shared datatypes: optional values and the engine's error results. */
module Common {

  /** A value that may be absent (Python's None). */
  datatype Option<+T> = None | Some(value: T)

  /** The two ValueError raises of the engine that a caller can reach. */
  datatype Error =
    | IllegalMoveAttempted   // State.makeMove: the destination is not a legal move
    | ChainJumpMismatch      // Board.movablePieces: the pending chain-jump cell is not the player's

  /** The outcome of an operation that may raise. */
  datatype Result<+T> = Ok(value: T) | Err(error: Error)
}
