/** Small pieces of JavaScript semantics that both source files lean on:
    a missing value or a thrown exception, and `Math.max`, which answers
    -Infinity when it is given no argument. */
module Basics {

  datatype Option<T> = None | Some(value: T)

  datatype Result<T, E> = Ok(value: T) | Err(error: E)

  /** The value of `Math.max(...xs)` for finite reals: -Infinity for no argument. */
  datatype Bound = NegInfinity | Finite(value: real)

  function Maximum(s: seq<real>): (m: Bound)
    ensures m.NegInfinity? <==> s == []
    ensures m.Finite? ==> m.value in s
    ensures m.Finite? ==> forall i :: 0 <= i < |s| ==> s[i] <= m.value
  {
    if s == [] then NegInfinity
    else
      match Maximum(s[1..])
      case NegInfinity => Finite(s[0])
      case Finite(rest) => Finite(if s[0] < rest then rest else s[0])
  }
}
