/** Small datatypes shared by every module of the model. */
module Basics {

  datatype Option<+T> = None | Some(value: T)

  /** The outcome of a step that either produces a value or raises (the error is the exception's text). */
  datatype Result<+T> = Success(value: T) | Failure(error: string)

  /** What `d.get(key)` finds in a Python dict whose values are strings:
      the key is missing, it holds `None`, or it holds a string. */
  datatype Value = Absent | Null | Str(s: string)

  /** `f"{d.get(key, default)}"`: a missing key renders the default, `None` renders as "None". */
  function Shown(v: Value, default: string): string
  {
    match v
    case Absent => default
    case Null => "None"
    case Str(s) => s
  }

  /** Python truthiness of a value: only a non-empty string is true. */
  predicate Truthy(v: Value)
  {
    v.Str? && v.s != ""
  }

  /** Python truthiness of an optional credential read from the environment. */
  predicate Falsy(key: Option<string>)
  {
    key.None? || key.value == ""
  }
}
