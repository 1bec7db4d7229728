/** Option and Result values used in place of C# null references and thrown exceptions. */
module Wrappers {

  datatype Option<+T> = None | Some(value: T) {
    /** The wrapped value, or `default` when there is none (C#'s `??`). */
    function GetOr(default: T): T {
      match this
      case Some(v) => v
      case None => default
    }
  }

  datatype Result<+R, +E> = Success(value: R) | Failure(error: E)

  /** The outcome of an operation that returns nothing but may throw. */
  datatype Outcome<+E> = Pass | Fail(error: E)
}

/** C# strings, which may be null. */
module NullableStrings {

  datatype NString = Null | Str(value: string)

  /** `string.IsNullOrEmpty`. */
  predicate IsNullOrEmpty(s: NString) {
    s.Null? || s.value == ""
  }
}

/** The .NET exceptions the core throws, with the parameter names and messages it gives them. */
module Exceptions {

  datatype Exception =
    | ArgumentNullException(paramName: string)
    | ArgumentException(message: string, paramName: string)
    | InvalidOperationException(message: string)
}
