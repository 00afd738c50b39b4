/** Failure-carrying values for the classifier's exceptions.
    Every `throw` of the source becomes a `Fail`/`Failure` carrying an `Error`. */
module Failures {

  datatype Option<+T> = None | Some(value: T)

  /** The result of an operation that either produces a value or throws. */
  datatype Result<+T> = Success(value: T) | Failure(error: Error)

  /** The result of an operation that only checks (a validator) and produces nothing. */
  datatype Outcome = Pass | Fail(error: Error)

  /** The field of a persisted model file at which reading stopped. */
  datatype Field =
    | ModelHeader              // model count and dimension
    | ModelValues(model: nat)  // the weights of one model ran out
    | BiasCount
    | BiasValues
    | LabelCount
    | LabelValues

  /** One constructor per distinct failure the classifier raises. */
  datatype Error =
    | EmptyInput                                           // "x is empty"
    | SizeMismatch(rows: nat, labels: nat)                 // "x y have different size"
    | WrongLabel(index: nat, value: int)                   // "wrong label in i: must be 1 or -1"
    | DimensionMismatch(index: nat, expected: nat, got: nat)
    | NoModels                                             // "there are no models"
    | DuplicateLabels                                      // "labels contain duplicates"
    | CorruptModel(field: Field)                           // std::length_error of ReadModel
    | PredictionCountMismatch                              // std::invalid_argument of SavePredictions
}
