/**
 What every module may need: an optional value, and signs of real numbers.
 */
module Basics {

  datatype Option<+T> = None | Some(value: T)

  function Absolute(a: real): real
  {
    if a < 0.0 then -a else a
  }

  lemma ProductPositive(a: real, b: real)
    requires a > 0.0 && b > 0.0
    ensures a * b > 0.0
  {
  }

  lemma ProductNonnegative(a: real, b: real)
    requires a >= 0.0 && b >= 0.0
    ensures a * b >= 0.0
  {
  }
}
