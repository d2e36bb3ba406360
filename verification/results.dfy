/** Failure-compatible wrappers and the failure conditions the analysis pipeline can raise. */
module Results {

  /** A value that may be absent; pandas' missing category (NaN) is `None`. */
  datatype Option<+T> = None | Some(value: T)

  /** Either a value or the error that stopped the computation; usable with `:-`. */
  datatype Result<+T, +E> = Ok(value: T) | Err(error: E) {

    predicate IsFailure() {
      Err?
    }

    function PropagateFailure<U>(): Result<U, E>
      requires Err?
    {
      Err(error)
    }

    function Extract(): T
      requires Ok?
    {
      value
    }
  }

  /** The exceptions the modelled code paths can raise. */
  datatype Error =
    | MissingColumn(name: string)   // KeyError: a column lookup or a drop names an absent column
    | NotNumeric(column: string)    // TypeError: binning a column that holds non-numeric cells
    | NonUniqueBinEdges             // ValueError: two quantile edges coincide
    | EmptySequence                 // ValueError: max() over an empty score table
}
