/** Failure-compatible results and the error conditions the network can raise. */
module Outcomes {

  /** The ways a layer call fails in the original program. Each one is an
      exception there: numpy refusing a shape, an index past a bound, or the
      dense layer's activation dispatch falling through. */
  datatype Error =
    | NegativeDimension                 // a valid convolution larger than its input
    | ChannelMismatch                   // input has more channels than the kernel bank
    | FeatureMismatch                   // row width differs from a dense layer's input size
    | UnsupportedActivation(tag: string)
    | EmptyReduction                    // a row maximum taken over no elements
    | LabelOutOfRange                   // a label outside numpy's index range [-C, C)
    | RowTooShort                       // a flat row with fewer entries than the shape it refills

  datatype Result<+T> = Success(value: T) | Failure(error: Error) {

    predicate IsFailure() {
      Failure?
    }

    function PropagateFailure<U>(): Result<U>
      requires Failure?
    {
      Failure(error)
    }

    function Extract(): T
      requires Success?
    {
      value
    }
  }
}
