/** Failure-compatible result types shared by every module. */
module Wrappers {

  datatype Option<+T> = None | Some(value: T)

  /** The ways a run can end without a result (ruma-state-res and ruma-signatures errors).
      `Panic` stands for the source's `unwrap` and `expect` on absent or undecodable data. */
  datatype Error =
    | SerdeJson
    | Unsupported
    | NotFound
    | InvalidPdu
    | Panic
    | JsonField
    | PduSize
    | Verification
    | ParseId

  datatype Result<+T> = Ok(value: T) | Err(error: Error) {
    predicate IsFailure() {
      Err?
    }

    function PropagateFailure<U>(): Result<U>
      requires Err?
    {
      Err(error)
    }

    function Extract(): T
      requires Ok?
    {
      value
    }
  }

  /** Two outcomes a caller cannot tell apart: both fail, or both give the same value. */
  predicate SameOutcome<T(==)>(a: Result<T>, b: Result<T>) {
    a.Ok? == b.Ok? && (a.Ok? ==> a.value == b.value)
  }

  lemma TakeOneMore<T>(s: seq<T>, i: nat)
    requires i < |s|
    ensures s[..i + 1] == s[..i] + [s[i]]
  {
  }
}
