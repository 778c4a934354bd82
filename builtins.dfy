/** The two Python building blocks the sensor pipeline leans on: a value that
    may be `None`, and the builtin `abs` on numbers. */
module Builtins {

  /** A dictionary lookup with `.get(key)`: `None` when the key is absent
      (or holds JSON null), `Some(v)` otherwise. */
  datatype Option<+T> = None | Some(value: T)

  /** Python's `abs` on a real number. */
  function Abs(x: real): (r: real)
    ensures r >= 0.0
    ensures r == x || r == -x
  {
    if x < 0.0 then -x else x
  }
}
