/** Optional values and results shared by the whole model: Python's `None` is
    `Option.None`, and a raised exception is `Result.Err`. */
module Outcomes {

  datatype Option<+T> = None | Some(value: T)

  datatype Result<+T, +E> = Ok(value: T) | Err(error: E)

  /** `x or 0` in Python: an absent count reads as zero. */
  function OrZero(x: Option<int>): int
  {
    match x
    case None => 0
    case Some(v) => v
  }
}
