/** Option and Result, and the error classes the bridge's stores raise. */
module Basics {
  datatype Option<+T> = None | Some(value: T)

  /** Why a store or engine call was refused. */
  datatype Error =
    | NotFound            // KeyError("operation_not_found")
    | IdempotencyConflict // the key is taken by a different request
    | IdReused            // the operation id is taken
    | StateConflict       // OperationStateConflict
    | Corruption          // OperationCorruptionError
    | InvalidValue        // ValueError from a dataclass check
    | PolicyError         // RetryEngineError

  datatype Result<+T> = Ok(value: T) | Err(error: Error)

  function Min(a: nat, b: nat): nat {
    if a <= b then a else b
  }

  function MinReal(a: real, b: real): real {
    if a <= b then a else b
  }

  /** The first `n` elements, or all of them: Python's `xs[:n]` for `n >= 0`. */
  function Take<T>(xs: seq<T>, n: nat): seq<T> {
    xs[..Min(n, |xs|)]
  }

  /** The last `n` elements, or all of them: Python's `xs[-n:]` for `n >= 1`. */
  function Last<T>(xs: seq<T>, n: nat): seq<T> {
    xs[|xs| - Min(n, |xs|)..]
  }
}
