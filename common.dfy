/** JavaScript value conventions the backend relies on, and the response envelope
    every GraphQL operation returns. */
module Common {

  /** A value that may be `undefined` or `null` (None) or present (Some). */
  datatype Option<+T> = None | Some(value: T) {
    /** Destructuring default: `const { x = d } = args`. */
    function GetOr(default: T): (r: T)
      ensures Some? ==> r == value
      ensures None? ==> r == default
    {
      match this
      case Some(v) => v
      case None => default
    }
  }

  /** The outcome of an `async` operation: its value, or the message of the Error it throws. */
  datatype Result<+T> = Success(value: T) | Failure(error: string)

  /** `!!s` for a string that may be missing: only a present, non-empty string is truthy. */
  predicate Truthy(s: Option<string>) {
    s.Some? && s.value != ""
  }

  /** `!!n` for a number that may be missing: zero is falsy. */
  predicate NumberTruthy(n: Option<int>) {
    n.Some? && n.value != 0
  }

  /** A relational operator (`<`, `>`) reads `null` as 0. */
  function NumberOrZero(n: Option<int>): (r: int)
    ensures n.Some? ==> r == n.value
    ensures n.None? ==> r == 0
  {
    match n
    case Some(v) => v
    case None => 0
  }

  /** A key of a response object that is left out, set to `null`, or set to a value. */
  datatype Field<+T> = Absent | Null | Present(value: T)

  /** `{ success, message, data }`, the shape of every response. */
  datatype Envelope<+D> = Envelope(success: bool, message: string, data: Field<D>)
}
