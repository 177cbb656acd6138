/** Option and Result wrappers, and the exceptions the transform can raise. */
module Base {

  datatype Option<+T> = None | Some(value: T)

  /** A value or a thrown error; usable with `:-`. */
  datatype Result<+T, +E> = Ok(value: T) | Err(error: E) {
    predicate IsFailure() { Err? }

    function PropagateFailure<U>(): Result<U, E>
      requires Err?
    {
      Err(error)
    }

    function Extract(): T
      requires Ok?
    {
      value
    }
  }

  /** The exceptions thrown by the options prefix of `fromString` and by the visitor. */
  datatype JsError =
    | MissingFactory      // Error('Missing options.factory function name.')
    | NullOptions         // TypeError: `options.factory` read on `null`
    | NamespaceAttribute  // Error('Namespace attributes not supported. JSX is not XML.')
    | PatternNotString    // TypeError: `unknownTagPattern.replace` on a non-string
}
