/** Small shared vocabulary: an optional value (the source's `None`-returning
    reads) and the absolute value of a real. */
module Base {

  /** A value that may be missing, for readings that can fail. */
  datatype Option<T> = None | Some(value: T)

  /** Absolute value, as Python's `abs` on a number. */
  function Abs(x: real): (r: real)
    ensures r >= 0.0
    ensures r == x || r == -x
  {
    if x < 0.0 then -x else x
  }
}
