/** The failure-carrying results the engine's operations return. */
module Outcomes {
  datatype Option<+T> = None | Some(value: T)

  datatype Result<+T> = Success(value: T) | Failure(error: Error) {
    predicate IsFailure() {
      Failure?
    }

    function PropagateFailure<U>(): Result<U>
      requires Failure?
    {
      Failure(error)
    }

    function Extract(): T
      requires Success?
    {
      value
    }
  }

  /** The error kinds a caller of the modelled code can tell apart. */
  datatype Error =
    | GenerationConflict
    | LifecycleConflict
    | EntryConflict
    | StoreUnavailable
    | BasketUnavailable
    | NotCaptured
    | NoStartingValue
    | DivisionByZero
    | ZeroBaseline
    | InvalidCorporateAction
    | CircularRecipe
    | VersionUnavailable
    | EmptyComponent
    | IncompleteSeries
    | InvalidSeries
    | InvalidWeights
    | RateUnavailable
    | SeriesUnavailable
    | CurrencyUnavailable
    | SyntheticNotAllowed
    | StaleSeries
    | TotalReturnUnavailable
    | AdjustedUnavailable
    | UnsupportedPolicy
}
