/**
 * The values the converter works on: a JSON document as the standard JSON
 * decoder hands it over (dicts, lists, strings, numbers, booleans, None),
 * plus any other object a caller may have put into such a structure.
 */
module JsonValue {

  /** A decoded JSON value. Object keeps its entries in the dict's iteration
      order; Other stands for a Python object of any other class (a date, a
      set, ...), identified by its qualified class name. */
  datatype Json =
    | Object(fields: seq<(string, Json)>)
    | Array(items: seq<Json>)
    | Str(s: string)
    | Num(n: int)
    | Bool(b: bool)
    | Null
    | Other(className: string)

  /** The name Python prints for the value's class, as in `<class 'dict'>`. */
  function ClassName(v: Json): string
  {
    match v
    case Object(_) => "dict"
    case Array(_) => "list"
    case Str(_) => "str"
    case Num(_) => "int"
    case Bool(_) => "bool"
    case Null => "NoneType"
    case Other(c) => c
  }

  /** Whether a child is written as a nested container (dict or list). */
  predicate IsContainer(v: Json)
  {
    v.Object? || v.Array?
  }

  /** The exception the converter raises: TypeError with its message. */
  datatype Error = TypeError(message: string)

  /** Either the converted text or the exception that aborted the conversion. */
  datatype Result<T> = Success(value: T) | Failure(error: Error)
  {
    predicate IsFailure()
    {
      Failure?
    }

    function PropagateFailure<U>(): Result<U>
      requires Failure?
    {
      Failure(error)
    }

    function Extract(): T
      requires Success?
    {
      value
    }
  }
}
