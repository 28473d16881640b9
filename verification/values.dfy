/** Python values as the task pool sees them: the arguments a task is
    built with, what its callable returns, and the extra result data that
    may be attached to it. Only the shapes the pool inspects are
    distinguished: tuples (which the extra data is concatenated onto) and
    the truthiness of a value (which decides whether the data is attached
    at all). */
module Values {

  datatype Value =
    | NoneValue
    | Bool(b: bool)
    | Int(i: int)
    | Str(s: string)
    | Tuple(items: seq<Value>)
    | List(elems: seq<Value>)
    | Dict(entries: map<string, Value>)
    | Opaque(tag: string)   // any other object (a signal, a widget, ...)

  /** Python's truth test: `None`, `False`, zero and empty containers are
      false; every other object is true. */
  predicate Truthy(v: Value) {
    match v
    case NoneValue => false
    case Bool(b) => b
    case Int(i) => i != 0
    case Str(s) => s != []
    case Tuple(items) => items != []
    case List(elems) => elems != []
    case Dict(entries) => entries != map[]
    case Opaque(_) => true
  }

  /** The callable a task wraps; its body is not part of the pool. */
  datatype Callable = Callable(name: string)

  /** An exception object. `TupleConcatTypeError(left)` is the TypeError
      Python raises for `left + (data,)` when `left` is not a tuple. */
  datatype Exception =
    | Raise(kind: string, message: string)
    | TupleConcatTypeError(left: Value)

  /** The text `traceback.format_exc()` produces while `exc` is being
      handled; the text itself is not modelled. */
  datatype Traceback = FormattedTraceback(exc: Exception)

  /** What one call of a task's callable does. */
  datatype Outcome = Returned(value: Value) | Raised(exc: Exception)
}
