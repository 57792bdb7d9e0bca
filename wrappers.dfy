/** Small value wrappers shared by every module of the model. */
module Wrappers {

  /** Python's None versus a present value. */
  datatype Option<+T> = None | Some(value: T)

  /**
   * One member of a JSON object as the source reads it with `dict.get`:
   * the key may be missing, present with `null`, or present with a value.
   */
  datatype Field<+T> = Absent | Null | Value(value: T) {

    /** `d.get(key)`: a missing key and a `null` both read as None. */
    function Get(): Option<T> {
      if Value? then Some(value) else None
    }

    /** `d.get(key, default)`: only a missing key yields the default; `null` stays None. */
    function GetOr(default: T): Option<T> {
      match this
      case Absent => Some(default)
      case Null => None
      case Value(v) => Some(v)
    }
  }

  /** The result of Python code that either returns a value or raises an exception. */
  datatype Outcome<+T> = Returned(value: T) | Raised(message: string)

  /** Python truthiness of an optional string: None and "" are false. */
  predicate Truthy(s: Option<string>) {
    s.Some? && s.value != ""
  }

  /** `f"{x}"` of an optional string: None renders as "None". */
  function Show(s: Option<string>): string {
    if s.Some? then s.value else "None"
  }
}
