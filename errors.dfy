/** The exceptions the handlers raise, and the Result type that carries them. */
module Errors {

  /** The exception kinds raised across the handlers. */
  datatype Error =
    | MalformedEvent                       // a required field is missing or falsy
    | ValueError                           // a field is present but has the wrong value
    | MissingEnvironmentVariable(name: string)
    | KeyError(key: string)                // `d[k]` on a dictionary without k
    | IndexError                           // `xs[i]` past the end of a list
    | TypeError                            // `[...]` used on a value that cannot be subscripted so
    | AttributeError                       // `.get` or `.lower()` on a value without that method
    | ClientError(code: string)            // an AWS call rejected by the service
    | Failure                              // a bare `raise Exception`

  datatype Result<+T> = Ok(value: T) | Err(error: Error) {

    predicate IsFailure() {
      Err?
    }

    function PropagateFailure<U>(): Result<U>
      requires Err?
    {
      Err(error)
    }

    function Extract(): T
      requires Ok?
    {
      value
    }
  }

  datatype Option<+T> = None | Some(value: T)

  /** The result of a step that returns nothing: a handler, a check. */
  type Outcome = Result<()>

  const Pass: Outcome := Ok(())
}
