/** Failure-compatible wrappers shared by every module of the model. */
module Wrappers {

  /** A value that may be absent; Python's `None` return. */
  datatype Option<+T> = None | Some(value: T)

  /** Either a value or the exception the Python code would raise. */
  datatype Result<+T, +E> = Success(value: T) | Failure(error: E) {

    predicate IsFailure() {
      Failure?
    }

    function PropagateFailure<U>(): Result<U, E>
      requires Failure?
    {
      Failure(error)
    }

    function Extract(): T
      requires Success?
    {
      value
    }
  }

  /** Turns an absent value into the given failure. */
  function Need<T, E>(o: Option<T>, e: E): (r: Result<T, E>)
    ensures r.Success? <==> o.Some?
    ensures r.Success? ==> r.value == o.value
    ensures r.Failure? ==> r.error == e
  {
    match o
    case Some(v) => Success(v)
    case None => Failure(e)
  }
}

/** The exceptions that abort a simulation run. */
module Errors {

  datatype SimError =
    | InvalidMovement(name: string)   // ValueError('Not a valid type') from the engine
    | MissingPolicy(light: int)       // KeyError on the light policy mapping
    | MissingRoad(name: string)       // KeyError on the road parameter mapping
    | LightTimeIndex(index: int)      // IndexError on the light-times list
    | DivisionByZero                  // ZeroDivisionError
    | NoPendingEvent                  // popleft on None when every event stream is empty
    | DrawsExhausted                  // the supplied random draws ran out before the horizon
}
