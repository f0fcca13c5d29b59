/** The value-or-error pair that every Go function of the form
    `func F(...) (T, error)` returns, as one datatype: the model never
    carries a value and an error at the same time. */
module Results {

  datatype Result<+T, +E> = Ok(value: T) | Err(error: E) {

    /** Replaces the error of a failure, keeping a success untouched. */
    function MapErr<E2>(f: E -> E2): (r: Result<T, E2>)
      ensures r.Ok? <==> this.Ok?
      ensures r.Ok? ==> r.value == this.value
      ensures r.Err? ==> r.error == f(this.error)
    {
      match this
      case Ok(v) => Ok(v)
      case Err(e) => Err(f(e))
    }
  }
}
