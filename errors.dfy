/** The failure values a tool invocation can end in. The server raises
    Python exceptions (a `KeyError`, a `TypeError`, an `HTTPException`); here
    each is a value, so every handler is a total function. */
module Errors {

  datatype Error =
    | ArgumentsNotObject          // the arguments are not a dictionary
    | MissingArgument(name: string)   // `args[name]` raises KeyError
    | UnsupportedValue(name: string)  // the argument has a type the model does not coerce
    | MalformedResponse           // the upstream JSON has an unexpected shape
    | Upstream(status: int, message: string)  // the HTTPException of `_post_search`

  datatype Result<+T> = Ok(value: T) | Err(error: Error) {
    predicate IsFailure() {
      Err?
    }

    function PropagateFailure<U>(): Result<U>
      requires Err?
    {
      Err(error)
    }

    function Extract(): T
      requires Ok?
    {
      value
    }
  }
}
