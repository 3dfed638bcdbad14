/** Optional values and results shared by every module of the model. */
module Common {

  /** A value that may be absent. In the JavaScript model `None` stands for `undefined`
      (or for `null`, where the source treats the two alike). */
  datatype Option<+T> = None | Some(value: T)

  /** The outcome of an operation that can fail with an error of type `E`. */
  datatype Result<+T, +E> = Ok(value: T) | Err(error: E)

  /** A string that may be absent (such as what `localStorage.getItem` returns) is
      truthy: present and not empty. */
  predicate Present(s: Option<string>) {
    s.Some? && s.value != ""
  }
}
