/** Identifiers and the failure vocabulary shared by the whole backend. */
module Common {

  /** Database identities (Java `Long` ids); never negative. */
  type ProductId = nat
  type OutletId = nat
  type VendorId = nat
  type OrderId = nat
  type SellerAppId = nat

  /** The three exception kinds the services raise. */
  datatype Error =
    | NotFound           // ResourceNotFoundException
    | InsufficientStock  // InsufficientStockException
    | InvalidOperation   // InvalidOperationException

  datatype Option<+T> = None | Some(value: T)

  /** The value of a call that either returns `value` or throws `error`. */
  datatype Result<+T> = Ok(value: T) | Err(error: Error)

  /** The outcome of a `void` service call. */
  datatype Outcome = Pass | Fail(error: Error)

  function Max(a: int, b: int): int { if a < b then b else a }
  function Min(a: int, b: int): int { if a < b then a else b }

  /** A strict inequality between multiples of the same positive factor holds between the multiplicands. */
  lemma CancelRight(x: int, y: int, k: int)
    requires k > 0 && x * k < y * k
    ensures x < y
  {
  }
}
