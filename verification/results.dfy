/** The exceptions the modelled code raises, as a result type usable with `:-`. */
module Results {

  /** The exceptions the modelled code can raise, named after their cause. */
  datatype Error =
    | InvalidRange      // ValueError from map_z2color: vmin >= vmax
    | ZeroDivision      // ZeroDivisionError from mpl_to_plotly: one palette entry
    | ShapeMismatch     // ValueError from np.vstack: coordinate lists of different lengths
    | IndexOutOfBounds  // IndexError from numpy fancy indexing with the simplices
    | EmptyReduction    // ValueError from np.min on an empty array of means

  datatype Option<+T> = None | Some(value: T)

  datatype Result<+T> = Ok(value: T) | Err(error: Error) {

    predicate IsFailure() {
      Err?
    }

    function PropagateFailure<U>(): Result<U>
      requires Err?
    {
      Err(error)
    }

    function Extract(): T
      requires Ok?
    {
      value
    }
  }
}
