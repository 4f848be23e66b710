/** Shared vocabulary of the stock and work-assignment engine: optional values,
    results, and the kinds of failure a handler can end in. */
module Common {

  datatype Option<T> = None | Some(value: T)

  /** The outcome of one handler: a value, or the kind of error that aborted
      its transaction. */
  datatype Result<T> = Ok(value: T) | Err(error: Error)

  /** Error kinds, not messages. */
  datatype Error =
    | MissingInput        // a required request field is absent or empty
    | InvalidDocument     // a document fails its schema when it is saved
    | NonPositiveTotal    // cleared + shortage + seconds <= 0
    | NotFound            // a referenced assignment, request or product is absent
    | InsufficientStock   // product stock below the requested quantity
    | OverAllocation      // a return exceeds the unaccounted quantity
    | LockConflict        // a return request is already outstanding
    | AlreadyReviewed     // review of a request that is no longer Pending
    | InvalidAction       // review action other than approve or reject
    | NoClearedStock      // a sale line whose product has no Cleared assignment
    | InsufficientCleared // Cleared assignments hold less than the sale line asks
    | NullReference       // a property read on a missing (null) product
    | UndefinedName       // a reference to an identifier that is not declared

  /** JavaScript's Math.min on two integers. */
  function Min(a: int, b: int): (r: int)
    ensures r <= a && r <= b && (r == a || r == b)
  {
    if a <= b then a else b
  }

  function Max(a: int, b: int): (r: int)
    ensures r >= a && r >= b && (r == a || r == b)
  {
    if a >= b then a else b
  }

  /** `x || 0` on an optional number: an absent value defaults to zero. */
  function OrZero(x: Option<int>): int
  {
    if x.Some? then x.value else 0
  }
}
