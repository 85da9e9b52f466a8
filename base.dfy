/** Values shared by the whole model: optional values, the two domain errors
    and JavaScript truthiness of an optional string. */
module Base {

  /** `undefined` (or `null`) versus a present value. */
  datatype Option<+T> = None | Some(value: T)

  /** The two error classes the init flow raises: `InvalidArgumentError`
      (a malformed or missing argument) and `UnauthorizedError`. */
  datatype Error = InvalidArgument | Unauthorized

  /** A call that returns nothing useful but may throw. */
  datatype Outcome = Pass | Fail(error: Error)

  /** A call that returns a value or throws. */
  datatype Result<+T> = Success(value: T) | Failure(error: Error)

  /** Appending is associative; used to line up logs of calls. */
  lemma AppendAssociative<T>(a: seq<T>, b: seq<T>, c: seq<T>)
    ensures (a + b) + c == a + (b + c)
  {
  }

  /** JavaScript truthiness of an optional string: `undefined`, `null` and
      the empty string are falsy, every other string is truthy. */
  predicate Truthy(s: Option<string>)
  {
    s.Some? && s.value != ""
  }
}
