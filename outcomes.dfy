/** Failure values for the matrix engine and the network.
    Every `panic!` of the engine becomes one `Error` constructor; an operation
    that can panic returns a `Result`. */
module Outcomes {

  datatype Error =
    | ShapeLengthMismatch      // `Vector2D::new`: length of values is not rows * cols
    | IndexOutOfBounds         // the engine's own "Index out of bounds." checks
    | StorageOutOfBounds       // a `Vec` index past the end (only on a literal that bypasses `new`)
    | DotShapeMismatch         // `dot`: self.cols != other.rows
    | OperandShapeMismatch     // elementwise operators on operands of different shape
    | InvalidAxis              // `mean` with an axis other than 0 or 1
    | LengthUnderflow          // `len() - 1` underflows on an empty list: the layer list of
                               // `initialize_weights` / `initialize_biases`, the cache of `h()`

  datatype Result<T> = Ok(value: T) | Err(error: Error)

  datatype Option<T> = None | Some(value: T)

  /** Outcome of an operation that returns nothing on success. */
  datatype Status = Done | Failed(error: Error)
}
