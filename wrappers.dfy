/** Option and Result, used for Python's `None` and for raised exceptions. */
module Wrappers {

  datatype Option<+T> = None | Some(value: T) {
    /** The value, or `default` when there is none (Python's `x or default`). */
    function GetOr(default: T): T {
      match this
      case Some(v) => v
      case None => default
    }
  }

  /** `Err` stands for an exception the source raises and a caller catches. */
  datatype Result<+T, +E> = Ok(value: T) | Err(error: E)

  /** An HTTP error answer, with its status code and detail message. */
  datatype HttpError = HttpError(status: int, detail: string)
}

/** The JSON-like values stored in the source's dictionaries and documents. */
module Values {
  import opened Seqs

  /** `Day` is a `date` as its day number, `Time` a `datetime` as a timestamp in seconds,
      `Dict` a nested dictionary. */
  datatype Value =
    | Null | Bool(b: bool) | Int(i: int) | Str(s: string) | List(items: seq<Value>)
    | Day(dayNumber: int) | Time(seconds: int) | Dict(entries: map<string, Value>)

  type Metadata = map<string, Value>

  /** Python truthiness of a value. */
  predicate Truthy(v: Value) {
    match v
    case Null => false
    case Bool(b) => b
    case Int(i) => i != 0
    case Str(s) => s != ""
    case List(items) => items != []
    case Day(_) => true
    case Time(_) => true
    case Dict(entries) => entries != map[]
  }

  /** A value as an f-string renders it. Lists, dates, timestamps and nested
      dictionaries render as a fixed placeholder. */
  function Show(v: Value): string {
    match v
    case Null => "None"
    case Bool(b) => if b then "True" else "False"
    case Int(i) => IntToString(i)
    case Str(s) => s
    case _ => "..."
  }

  /** `d.get(key, default)`. */
  function Get(d: Metadata, key: string, default: Value): Value {
    if key in d then d[key] else default
  }

  /** `f"{d.get(key, default)}"`. */
  function GetText(d: Metadata, key: string, default: string): string {
    if key in d then Show(d[key]) else default
  }

  /** `d.get(key, False)` followed by a truth test. */
  predicate TruthyAt(d: Metadata, key: string) {
    key in d && Truthy(d[key])
  }
}
