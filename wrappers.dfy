/** Failure-carrying values shared by every module of the model.
    Go returns `(T, error)`; the model returns `Result<T>`, whose error side is the
    text that `err.Error()` would print. */
module Wrappers {

  datatype Option<+T> = None | Some(value: T)

  datatype Result<+T> = Ok(value: T) | Err(error: string)

  /** `nil` error or an error text, the shape of a Go function returning only `error`. */
  type Failure = Option<string>

  /** The Go process either goes on with a value or has called `os.Exit(code)`. */
  datatype Flow<+T> = Next(value: T) | Halt(code: int)
}
