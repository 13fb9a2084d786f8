/** The values a loaded sales table holds, and the ways a run of the pipeline can fail. */
module Values {

  datatype Option<T> = None | Some(value: T)

  /** Why a run ends in the single error notice instead of a report. */
  datatype Error =
    | MissingColumns(names: seq<string>)  // a KeyError: these columns are not in the table
    | InvalidAmount(text: string)         // float() refused the text left after cleaning an amount
    | NonNumericQuantity                  // Quantity could not be totalled and formatted as a number
    | NoDatedRows                         // a TypeError: with no row left, the rate column stays a date column

  /** The outcome of a step: a value, or the error that ends the run. Usable with `:-`. */
  datatype Result<T> = Ok(value: T) | Err(error: Error) {
    predicate IsFailure() { Err? }

    function PropagateFailure<U>(): Result<U>
      requires Err?
    {
      Err(error)
    }

    function Extract(): T
      requires Ok?
    {
      value
    }
  }

  /** One cell of a table as pandas holds it: missing (NaN, None, NaT), a number, or a string. */
  datatype Cell = Missing | Num(x: real) | Text(s: string)
}
