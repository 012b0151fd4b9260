/** Failure-carrying results shared by every part of the model.
    The error kinds are the ways the modelled code can stop: an exception
    raised by the tensor library or the iterator protocol, or (for the
    zero-row division in sharpening) the point where the numerics break. */
module Wrappers {

  /** Why an operation produced no value. */
  datatype Error =
    | IndexError        // an index outside the indexed tensor
    | ShapeMismatch     // concatenation, stacking or elementwise arithmetic on incompatible shapes
    | EmptyStack        // stacking an empty list of tensors
    | ZeroRowSum        // dividing a row by its sum when that sum is zero
    | StopIteration     // drawing from a data loader that has no batches at all
    | AttributeError    // reading state that was never set

  datatype Option<+T> = None | Some(value: T)

  datatype Result<+T> = Ok(value: T) | Err(error: Error) {

    predicate IsFailure() {
      Err?
    }

    function PropagateFailure<U>(): Result<U>
      requires Err?
    {
      Err(error)
    }

    function Extract(): T
      requires Ok?
    {
      value
    }
  }
}
