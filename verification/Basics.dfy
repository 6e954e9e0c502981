/** What several modules share. */
module Basics {

  datatype Option<T> = None | Some(value: T)

  /** A stretch of time, in milliseconds. */
  type Span = r: real | 0.0 <= r

  function Pow2(k: nat): (p: nat)
    ensures p > 0
  {
    if k == 0 then 1 else 2 * Pow2(k - 1)
  }
}
