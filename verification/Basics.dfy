/** Small types and functions that several modules share. */
module Basics {

  datatype Option<+T> = None | Some(value: T)

  /** The result of a source function that may raise: a value, or the exception. */
  datatype Try<+T> = Ok(value: T) | Raised {
    predicate IsFailure() { Raised? }
    function PropagateFailure<U>(): Try<U>
      requires Raised?
    {
      Raised
    }
    function Extract(): T
      requires Ok?
    {
      value
    }
  }

  /** first, first + 1, ..., n ids. */
  function Consecutive(first: nat, n: nat): (ids: seq<nat>)
    ensures |ids| == n && forall j :: 0 <= j < n ==> ids[j] == first + j
  {
    seq(n, j requires 0 <= j < n => first + j)
  }

  /** The id that a tensor gets while a model is traced. */
  type TensorId = nat

  function Abs(x: real): real { if x < 0.0 then -x else x }
  function Max(a: real, b: real): real { if a < b then b else a }
  function Min(a: real, b: real): real { if b < a then b else a }
}
