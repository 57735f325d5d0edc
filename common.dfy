/**
 * Shared vocabulary of the four building-management registries: caller
 * identities, clock values, optional values, the two error codes and the
 * `{success, value | error}` reply every registry operation returns.
 */
module Common {

  /** A caller identity (a principal / address string), supplied by the host. */
  type Principal = string

  /**
   * A date value.  Operations that stamp the current time take it as a
   * parameter `now`, the reading of the host's clock; other dates (installation,
   * scheduled, maintenance) are passed in by the caller as plain values.
   */
  type Timestamp = int

  /** A nullable value: `None` stands for JavaScript's `null` (or an omitted argument, where a
      parameter has a default). */
  datatype Option<+T> = None | Some(value: T)

  /** The two failures a registry reports, as values rather than exceptions. */
  datatype ErrorCode = NotFound | Unauthorized {
    /** The numeric code carried in `{success: false, error: code}`. */
    function Code(): (c: nat)
      ensures c == 1 <==> NotFound?
      ensures c == 2 <==> Unauthorized?
    {
      match this
      case NotFound => 1
      case Unauthorized => 2
    }
  }

  /** The reply of every registry operation: `{success: true, value}` or `{success: false, error}`. */
  datatype Result<+T> = Success(value: T) | Failure(error: ErrorCode)

  /** A registry transition: the registry afterwards and the reply to the caller. */
  datatype Step<+S, +T> = Step(after: S, result: Result<T>)

  /** Every key of a registry map is an identifier already handed out by its counter. */
  ghost predicate IdsIssued<V>(m: map<int, V>, counter: nat) {
    forall id :: id in m ==> 1 <= id <= counter
  }
}
