/** Failure-carrying values for the marker loaders and the Java null reference. */
module Results {

  /** A value that may be absent: a Java reference that may be null, or a node that may be virtual. */
  datatype Option<+T> = None | Some(value: T)

  /** Why a marker operation threw. */
  datatype MarkerError =
    | BaseLoadFailed       // the base class's load threw a MarkerFileFormatException
    | TooFewPoints         // the line's point list has fewer than 3 entries
    | MissingCoordinate    // a point lacks x, y or z
    | MissingColorChannel  // the colour lacks r, g or b
    | AlphaOutOfRange      // the colour's alpha lies outside [0, 1]
    | ChannelOutOfRange    // java.awt.Color rejected a channel outside 0..255
    | NullPointer          // a null argument or field was dereferenced

  /** The result of a reader that either returns a value or throws. */
  datatype Result<+T> = Ok(value: T) | Err(error: MarkerError)

  /** The result of a void method that may throw. */
  datatype Outcome = Pass | Fail(error: MarkerError)
}
