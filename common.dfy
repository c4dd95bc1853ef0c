/** Failure-carrying values used across the model.

    A call in the contracts either returns a value or aborts the whole
    transaction with a typed error (a `panic_with_error!`, or the panic of an
    `unwrap` on a checked arithmetic result).  `Result` and `Outcome` stand for
    those two shapes; `Option` is the checked-arithmetic result before it is
    unwrapped. */
module Outcomes {

  datatype Option<+T> = None | Some(value: T)

  datatype Result<+T, +E> = Ok(value: T) | Err(error: E)

  /** The result of a check that returns nothing when it passes. */
  datatype Outcome<+E> = Pass | Fail(error: E)
}

/** Contract and account identities.  The modelled code compares them for
    equality, and the ledger's maps iterate their keys in ascending order,
    so an address is a natural number whose order stands for the ledger's
    ordering of addresses. */
module Addresses {
  type Address = nat
}
