/** Small value types shared by every module of the model. */
module Wrappers {

  /** A value that may be absent (Python's `Optional[T]`, or a key missing from a dict). */
  datatype Option<+T> = None | Some(value: T) {

    /** The wrapped value, or `default` when absent (Python's `d.get(key, default)`). */
    function GetOr(default: T): T {
      match this
      case Some(v) => v
      case None => default
    }
  }

  /** The outcome of an operation that may raise instead of returning. */
  datatype Result<+T, +E> = Success(value: T) | Failure(error: E)

  /**
   * How one field appears in the input of a record constructor or a JSON object:
   * left out, given as `None`/`null`, or given with a value.
   */
  datatype Input<+T> = Omitted | Null | Given(value: T) {

    /** An `Optional[T]` field with default `None`: only a given value is kept. */
    function AsOptional(): Option<T> {
      match this
      case Given(v) => Some(v)
      case _ => None
    }
  }

  /** A rejected record construction: the names of the fields that failed, in declaration order. */
  datatype ValidationError = ValidationError(fields: seq<string>)

  /** The `timestamp` field, named alike by the chat response and the WhatsApp message. */
  const TimestampKey := "timestamp"
}
