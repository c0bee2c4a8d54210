/** What every part of the model shares. */
module Prelude {

  datatype Option<+T> = None | Some(value: T)

  function Min(a: real, b: real): (r: real) {
    if b < a then b else a
  }

  function Max(a: real, b: real): (r: real) {
    if b > a then b else a
  }

  function Abs(x: real): (r: real) {
    if x < 0.0 then -x else x
  }
}
