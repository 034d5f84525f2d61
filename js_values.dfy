/** Request-body values as the booking controller sees them, and the
    JavaScript truthiness tests it applies to them. */
module JsValues {

  /** A body field that may be missing (undefined or null). */
  datatype Option<+T> = None | Some(value: T) {

    /** The value, or `default` when the field is missing. */
    function GetOr(default: T): T {
      match this
      case Some(v) => v
      case None => default
    }
  }

  /** `!!s` for a string field: a missing field and the empty string are falsy. */
  predicate TruthyString(f: Option<string>) {
    f.Some? && f.value != ""
  }

  /** `!!n` for a number field: a missing field and 0 are falsy (NaN is not modelled). */
  predicate TruthyNumber(f: Option<real>) {
    f.Some? && f.value != 0.0
  }

  /** `!!x` for an object or array field: any present object or array is truthy,
      including the empty array `[]`. */
  predicate Present<T>(f: Option<T>) {
    f.Some?
  }
}
