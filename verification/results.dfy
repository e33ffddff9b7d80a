/** Failure-carrying wrappers shared by every part of the model.

    The generative-model service is never called here: each call into it is a
    parameter (an "oracle") that answers with a `Result`, either the parsed
    value or the thing the call threw. */
module Results {

  /** A value that may be absent (`null` in the application). */
  datatype Option<+T> = None | Some(value: T)

  /** What an awaited call threw. JavaScript lets any value be thrown, so the
      application distinguishes `Error` instances, whose message it shows,
      from everything else. */
  datatype Fault = ErrorInstance(message: string) | OtherThrown

  /** The settled state of one awaited call: resolved with a value or rejected. */
  datatype Result<+T> = Success(value: T) | Failure(fault: Fault)
}
