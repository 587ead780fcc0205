/** Small shared vocabulary: an optional value and the absolute value of a real
    (JavaScript's Math.abs on the model's real numbers). */
module Common {

  datatype Option<+T> = None | Some(value: T)

  function Abs(x: real): (r: real)
    ensures 0.0 <= r
    ensures r == x || r == -x
  {
    if x < 0.0 then -x else x
  }
}
