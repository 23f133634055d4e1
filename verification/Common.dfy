/** Datatypes shared by the models of the individual components. */
module Common {
  datatype Option<+T> = None | Some(value: T)

  /** The larger of two integers. */
  function Max(a: int, b: int): int {
    if a >= b then a else b
  }
}
