/** Option and Result, and the Python exceptions that the modelled code raises or catches. */
module Wrappers {

  datatype Option<+T> = None | Some(value: T)

  /** The exceptions of the modelled code, named by the condition that raises them. */
  datatype Error =
    | TypeError        // an operation applied to a value of the wrong type (None, a number, ...)
    | AttributeError   // `.encode()` called on a URL that is not a string
    | ValueError       // int() or the timestamp parser rejected a string
    | IndexError       // element 0 of an empty list
    | JsonDecodeError  // json.loads rejected its input
    | XmlError         // the feed did not parse, or a required element was missing
    | FetchError       // the download failed (transport, HTTP status, abort, UTF-8 decoding)
    | Base64Error      // b64decode rejected its input

  /** The outcome of a Python call: a value, or the exception it raised. */
  datatype Result<+T> = Ok(value: T) | Err(error: Error) {

    predicate IsFailure() {
      Err?
    }

    function PropagateFailure<U>(): Result<U>
      requires Err?
    {
      Err(error)
    }

    function Extract(): T
      requires Ok?
    {
      value
    }
  }
}
