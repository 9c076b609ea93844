/** Python-level outcomes of the modelled code: values returned and exceptions raised. */
module Faults {

  datatype Option<+T> = None | Some(value: T)

  /** An exception, by its class and the payload that `str(e)` shows. */
  datatype Fault =
    | TypeError(msg: string)
    | ValueError(msg: string)
    | KeyError(keyRepr: string)        // `str(KeyError(k))` is `repr(k)`
    | IndexError(msg: string)
    | AssertionError                   // a bare `assert` carries no text
    | DataSourceUnavailable(msg: string)
    | OtherError(kind: string, msg: string)

  /** `str(e)`. */
  function Str(e: Fault): string {
    match e
    case TypeError(m) => m
    case ValueError(m) => m
    case KeyError(k) => k
    case IndexError(m) => m
    case AssertionError => ""
    case DataSourceUnavailable(m) => m
    case OtherError(_, m) => m
  }

  /** The result of a Python call: it returned a value or raised an exception. */
  datatype Raises<+T> = Returned(value: T) | Raised(fault: Fault)

  /** `repr(s)` of a Python string, without the escaping of quotes and control characters. */
  function ReprStr(s: string): string {
    "'" + s + "'"
  }
}
