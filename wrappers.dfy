/** Failure-carrying values shared by the model of the report pipeline.
    `Result` stands for a Python call that either returns a value or raises;
    `PyError` names the exception the source would raise. */
module Wrappers {

  datatype Option<+T> = None | Some(value: T)

  /** The Python exception a step of the pipeline raises, with the name or
      key that triggers it. */
  datatype PyError =
    | KeyError(key: string)              // a missing DataFrame column
    | AttributeError(attribute: string)  // attribute access on a frame without that column
    | NameError(name: string)            // a name that is not bound in the scope
    | UnboundLocalError(local: string)   // a local read before any assignment
    | TypeError(operation: string)       // an operation applied to None

  datatype Result<+T> = Ok(value: T) | Err(error: PyError)

  function Min(a: int, b: int): int { if a <= b then a else b }
}
