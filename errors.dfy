/** Optional values and the failures of the core: every failure is a panic in the
    program, raised when a caller breaks a precondition. */
module Errors {

  datatype Option<T> = None | Some(value: T)

  datatype Error =
    | EmptyPopulation   // selection from a population with no individuals
    | EmptyRange        // a gene range whose lower end exceeds its upper end
    | ChanceOutOfRange  // a mutation chance outside [0, 1]

  datatype Result<T> = Ok(value: T) | Err(error: Error)
}
