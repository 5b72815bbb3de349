/** The failures the normaliser and the constraint parser report. */
module Errors {

  datatype Error =
    | InvalidVersion(text: string)     // no version grammar matched (parser.go:96)
    | InvalidOperator(message: string) // the "~>" typo (constraint.go:454-457)
    | IndexPanic                       // Go panics indexing past the token list (constraint.go:221-226)

  datatype Result<+T> = Ok(value: T) | Err(error: Error) {
    predicate IsFailure() { Err? }

    function PropagateFailure<U>(): Result<U>
      requires Err?
    {
      Err(error)
    }

    function Extract(): T
      requires Ok?
    {
      value
    }
  }
}
