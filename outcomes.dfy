/** Outcomes of the monitor's operations: the two kinds of fatal error the
    program reports before exiting with status 1, and the result wrappers that
    carry them. */
module Outcomes {

  datatype Option<+T> = None | Some(value: T)

  /** Why the program stops. Every variant corresponds to an `exit(1)`. */
  datatype Error =
    | UnsupportedVendor(vendor: string)         // vendor string neither AMD nor Intel
    | UnsupportedCpu(family: bv32, model: bv32)  // family/model outside the vendor's table
    | OpenFailed(unit: nat)                      // the MSR device of a logical CPU cannot be opened
    | ReadFailed(register: nat)                  // an MSR read through a slot's handle fails

  datatype Result<+T> = Success(value: T) | Failure(error: Error)

  /** A result that carries no value. */
  datatype Status = Ok | Fail(error: Error)
}
