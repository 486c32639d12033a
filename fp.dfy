/** Option and Either, as the fp-ts library used throughout the system provides them. */
module Fp {

  datatype Option<+T> = None | Some(value: T)

  /** `Left` carries the failure (a response or an error), `Right` the success. */
  datatype Either<+L, +R> = Left(left: L) | Right(right: R)
}
