/** Outcomes shared by the whole model: an optional value, the errors the
    loan code raises as `ValueError`, and a failure-compatible result. */
module Results {

  datatype Option<+T> = None | Some(value: T)

  /** The `ValueError`s raised by the schedule pipeline. */
  datatype Error =
    | InvalidPeriodEndConvention
    | UnsupportedDayCountConvention(convention: string)
    | MissingSofrRate(resetDate: int)
    | MissingSofrRates(resetDates: seq<int>)

  datatype Result<+T> = Success(value: T) | Failure(error: Error) {

    predicate IsFailure() {
      Failure?
    }

    function PropagateFailure<U>(): Result<U>
      requires Failure?
    {
      Failure(error)
    }

    function Extract(): T
      requires Success?
    {
      value
    }
  }
}
