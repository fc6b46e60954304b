/** Option and Result, the failure-carrying values used throughout the model. */
module Wrappers {

  /** An optional argument: Python's `None` default or a supplied value. */
  datatype Option<+T> = None | Some(value: T) {
    function GetOr(default: T): T {
      match this
      case Some(v) => v
      case None => default
    }
  }

  /** The value an operation returns, or the exception it raises. */
  datatype Result<+T, +E> = Ok(value: T) | Err(error: E)
}

/** The exceptions the modelled operations can raise. */
module Errors {

  datatype Error =
    /** `ValueError('Unknown activation function ...')` of the objectness scorer. */
    | UnknownActivation(name: string)
    /** Indexing column 0, or reducing over the class axis, of a tensor with no columns. */
    | EmptyClassAxis
    /** `rpn_outs[0]` on an empty list of pyramid levels. */
    | EmptyPyramid
    /** Pyramid levels that disagree on image count, channel count or spatial size,
        or a class channel count different from the requested last dimension. */
    | ShapeMismatch
    /** A `view` with a `-1` dimension over a tensor with no elements. */
    | AmbiguousReshape
    /** Integer `%` or `/` by an anchor count of zero. */
    | DivisionByZero
    /** Advanced indexing with an index past the end of the indexed tensor. */
    | IndexOutOfRange
    /** `scatter_` with a class label outside the columns of the one-hot buffer. */
    | LabelOutOfRange
}
