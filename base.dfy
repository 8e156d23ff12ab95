/** Small shared vocabulary: an optional value and integer minimum/maximum. */
module Base {

  /** A value that may be absent; None stands for C#'s null. */
  datatype Option<T> = None | Some(value: T)

  function Min(a: int, b: int): (m: int)
    ensures m <= a && m <= b
    ensures m == a || m == b
  {
    if a <= b then a else b
  }

  function Max(a: int, b: int): (m: int)
    ensures m >= a && m >= b
    ensures m == a || m == b
  {
    if a >= b then a else b
  }
}
