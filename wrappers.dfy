/** Option and Result for the null returns and the IllegalArgumentException paths of the source. */
module Wrappers {
  datatype Option<T> = None | Some(value: T)

  /** Why an operation raised IllegalArgumentException; the message text is not modelled. */
  datatype Failure =
    | NoEngines
    | TooManyEngines
    | NoStages
    | UnsupportedPropellant
    | InvalidPropellantCombination
    | UnsupportedTankType
    | TankEngineTypeMismatch

  datatype Result<T> = Ok(value: T) | Err(failure: Failure)
}
