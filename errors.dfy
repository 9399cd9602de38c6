/**
  The engine's error type as the object protocol uses it: a kind taken from a
  closed enumeration plus a human-readable message (`Error::new(kind, detail)`).
  Only `InvalidOperation` is produced by the object protocol; the other kinds
  stand for those owned by the parser and the evaluator.
 */
module Errors {
  import opened Wrappers

  datatype ErrorKind =
    | InvalidOperation  // the object does not support the attempted capability
    | SyntaxError       // owned by the parser
    | UndefinedError    // owned by the evaluator

  datatype Error = Error(kind: ErrorKind, detail: string)

  /** The fallible return of `call_method` and `call`: `Result<Value, Error>`. */
  type Fallible<V> = Result<V, Error>
}
