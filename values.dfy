/** Values shared by the registry, the invocation context and discovery:
    Python's dynamically typed values, their truthiness, and the exceptions
    the core raises or lets through. */
module Values {

  datatype Option<T> = None | Some(value: T)

  /** An operation that either returns a value or raises an exception. */
  datatype Result<T> = Success(value: T) | Failure(error: Exception)

  /** A Python value as far as the core looks at it: configuration options,
      events and dancer metadata are passed through untouched. */
  datatype Value =
    | Null                       // None
    | Bool(b: bool)
    | Int(i: int)
    | Str(s: string)
    | List(items: seq<Value>)

  /** Python truthiness: `None`, `False`, `0`, `''` and `[]` are false. */
  predicate Truthy(v: Value)
  {
    match v
    case Null => false
    case Bool(b) => b
    case Int(i) => i != 0
    case Str(s) => s != ""
    case List(items) => items != []
  }

  /** Exceptions the core raises, catches or lets propagate. */
  datatype Exception =
    | Error(message: string)            // a plain `Exception(message)`
    | KeyError(key: string)
    | AttributeError(attribute: string)
    | ClickException(message: string)
    | ImportFailure(message: string)    // whatever loading a source file raised
}
